/** The names under which everything is kept in Redis (src/cache/keys.rs).  All of them live in
    one key space, so they must never collide. */
module CacheKeys {
  import opened Numerals
  import opened RpcTypes

  /** What a key stands for.  A reply is named by its normalized request. */
  datatype CacheKey =
    | Reply(chain: nat, norm: Request)
    | BlockNumber(chain: nat, number: nat)
    | BlockHash(chain: nat, hash: string)
    | BlockLogs(chain: nat, number: nat)
    | HeadSet(chain: nat)

  /** The hash of a normalized request, in lower-case hexadecimal. */
  type Digest = Request -> string

  /** What is assumed of the hash. */
  ghost predicate CollisionFree(d: Digest) {
    && (forall r, s :: d(r) == d(s) ==> r == s)
    && (forall r, i :: 0 <= i < |d(r)| ==> IsLowerDigit(d(r)[i]))
  }

  function Suffix(d: Digest, k: CacheKey): string {
    match k
    case Reply(_, norm) => d(norm)
    case BlockNumber(_, number) => "block:number:" + Print(number, 10)
    case BlockHash(_, hash) => "block:hash:" + hash
    case BlockLogs(_, number) => "logs:" + Print(number, 10)
    case HeadSet(_) => "head_cache"
  }

  function Encode(d: Digest, k: CacheKey): string {
    "poolbeg:" + Print(k.chain, 10) + ":" + Suffix(d, k)
  }

  function KeyOf(d: Digest, chain: nat, req: Request): string {
    Encode(d, Reply(chain, NormalizeForCache(req)))
  }

  function BeforeColon(s: string): string {
    if s == "" || s[0] == ':' then "" else [s[0]] + BeforeColon(s[1..])
  }

  lemma {:induction false} BeforeFirstColon(a: string, x: string)
    requires forall i :: 0 <= i < |a| ==> a[i] != ':'
    ensures BeforeColon(a + ":" + x) == a
  {
    if a != "" {
      assert (a + ":" + x)[1..] == a[1..] + ":" + x;
      BeforeFirstColon(a[1..], x);
    }
  }

  lemma SplitAtColon(a: string, x: string, b: string, y: string)
    requires a + ":" + x == b + ":" + y
    requires forall i :: 0 <= i < |a| ==> a[i] != ':'
    requires forall i :: 0 <= i < |b| ==> b[i] != ':'
    ensures a == b && x == y
  {
    BeforeFirstColon(a, x);
    BeforeFirstColon(b, y);
    assert x == (a + ":" + x)[|a| + 1..] && y == (b + ":" + y)[|b| + 1..];
  }

  lemma DropPrefix(p: string, x: string, y: string)
    requires p + x == p + y
    ensures x == y
  {
    assert x == (p + x)[|p|..] && y == (p + y)[|p|..];
  }

  lemma SuffixInjective(d: Digest, a: CacheKey, b: CacheKey)
    requires CollisionFree(d) && Suffix(d, a) == Suffix(d, b) && a.chain == b.chain
    ensures a == b
  {
    var s, t := Suffix(d, a), Suffix(d, b);
    TellApart(d, a);
    TellApart(d, b);
    match a
    case Reply(_, _) =>
    case BlockNumber(_, m) =>
      DropPrefix("block:number:", Print(m, 10), Print(b.number, 10));
      PrintInjective(m, b.number, 10);
    case BlockHash(_, h) => DropPrefix("block:hash:", h, b.hash);
    case BlockLogs(_, m) =>
      DropPrefix("logs:", Print(m, 10), Print(b.number, 10));
      PrintInjective(m, b.number, 10);
    case HeadSet(_) =>
  }

  /** The family of a key can be read off a few of its characters. */
  lemma TellApart(d: Digest, k: CacheKey)
    requires CollisionFree(d)
    ensures
      var s := Suffix(d, k);
      && (k.HeadSet? <==> |s| > 1 && s[0] == 'h')
      && (k.BlockLogs? <==> |s| > 1 && s[0] == 'l')
      && (k.BlockNumber? <==> |s| > 6 && s[1] == 'l' && s[6] == 'n')
      && (k.BlockHash? <==> |s| > 6 && s[1] == 'l' && s[6] == 'h')
  {
    var s := Suffix(d, k);
    match k
    case Reply(_, norm) =>
      assert forall i :: 0 <= i < |d(norm)| ==> IsLowerDigit(d(norm)[i]);
    case BlockNumber(_, m) => assert "block:number:" <= s;
    case BlockHash(_, h) => assert "block:hash:" <= s;
    case BlockLogs(_, m) => assert "logs:" <= s;
    case HeadSet(_) =>
  }

  lemma SplitAfterPrefix(prefix: string, p: string, x: string, q: string, y: string)
    requires prefix + p + ":" + x == prefix + q + ":" + y
    requires forall i :: 0 <= i < |p| ==> p[i] != ':'
    requires forall i :: 0 <= i < |q| ==> q[i] != ':'
    ensures p == q && x == y
  {
    assert prefix + (p + ":" + x) == prefix + p + ":" + x;
    assert prefix + (q + ":" + y) == prefix + q + ":" + y;
    DropPrefix(prefix, p + ":" + x, q + ":" + y);
    SplitAtColon(p, x, q, y);
  }

  lemma PrintHasNoColon(n: nat)
    ensures forall i :: 0 <= i < |Print(n, 10)| ==> Print(n, 10)[i] != ':'
  {
    PrintIsDigits(n, 10);
  }

  /** Keys of different families, chains, requests, numbers or hashes never collide. */
  lemma EncodeInjective(d: Digest, a: CacheKey, b: CacheKey)
    requires CollisionFree(d) && Encode(d, a) == Encode(d, b)
    ensures a == b
  {
    PrintHasNoColon(a.chain);
    PrintHasNoColon(b.chain);
    SplitAfterPrefix("poolbeg:", Print(a.chain, 10), Suffix(d, a), Print(b.chain, 10), Suffix(d, b));
    PrintInjective(a.chain, b.chain, 10);
    SuffixInjective(d, a, b);
  }

  /** Requests share a key exactly when they agree on everything but the id. */
  lemma SameKeyIff(d: Digest, chain: nat, r: Request, s: Request)
    requires CollisionFree(d)
    ensures KeyOf(d, chain, r) == KeyOf(d, chain, s) <==> r.rpcMethod == s.rpcMethod && r.params == s.params
  {
    if KeyOf(d, chain, r) == KeyOf(d, chain, s) {
      EncodeInjective(d, Reply(chain, NormalizeForCache(r)), Reply(chain, NormalizeForCache(s)));
    }
  }
}
