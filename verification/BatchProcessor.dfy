/** Batches (src/rpc/handler.rs, process_batch): three passes over arrays that process identical
    cacheable requests once.  The order and the ids of the answers follow sections 5 and 6 of the
    JSON-RPC 2.0 Specification. */
module BatchProcessor {
  import opened Wrappers
  import opened Json
  import opened RpcTypes
  import opened CacheKeys
  import opened RedisStore
  import opened CacheLayer
  import opened RequestHandler

  /** Only requests that may be cached and are not blocked are deduplicated. */
  predicate Dedupable(chain: Chain, r: Request) {
    !IsUncacheable(r.rpcMethod) && !IsMethodBlocked(r.rpcMethod, chain.blocked)
  }

  /** Two positions of a batch that share one execution. */
  predicate Same(d: Digest, chain: Chain, reqs: seq<Request>, i: nat, j: nat)
    requires i < |reqs| && j < |reqs|
  {
    Dedupable(chain, reqs[i]) && Dedupable(chain, reqs[j])
    && KeyOf(d, chain.chainId, reqs[i]) == KeyOf(d, chain.chainId, reqs[j])
  }

  /** No earlier position shares this one's execution. */
  predicate IsFirst(d: Digest, chain: Chain, reqs: seq<Request>, i: nat)
    requires i < |reqs|
  {
    forall j :: 0 <= j < i ==> !Same(d, chain, reqs, i, j)
  }

  /** The positions among the first n that are processed: first occurrences, and everything that
      is not deduplicated. */
  function Firsts(d: Digest, chain: Chain, reqs: seq<Request>, n: nat): (f: seq<nat>)
    requires n <= |reqs|
    ensures forall k :: 0 <= k < |f| ==> f[k] < n && IsFirst(d, chain, reqs, f[k])
    ensures forall i :: 0 <= i < n && IsFirst(d, chain, reqs, i) ==> i in f
    ensures forall j, k :: 0 <= j < k < |f| ==> f[j] < f[k]
  {
    if n == 0 then []
    else
      var f := Firsts(d, chain, reqs, n - 1);
      if IsFirst(d, chain, reqs, n - 1) then f + [n - 1] else f
  }

  /** The request repeats another one that may be answered with it: same method and parameters, and
      the method may be cached and is not blocked. */
  predicate Repeats(chain: Chain, r: Request, earlier: Request) {
    && !IsUncacheable(r.rpcMethod) && !IsMethodBlocked(r.rpcMethod, chain.blocked)
    && r.rpcMethod == earlier.rpcMethod && r.params == earlier.params
  }

  lemma SameIsRepeat(d: Digest, chain: Chain, reqs: seq<Request>, i: nat, j: nat)
    requires CollisionFree(d) && i < |reqs| && j < |reqs|
    ensures Same(d, chain, reqs, i, j) <==> Repeats(chain, reqs[i], reqs[j])
  {
    SameKeyIff(d, chain.chainId, reqs[i], reqs[j]);
  }

  lemma ProcessedIff(d: Digest, chain: Chain, reqs: seq<Request>, i: nat)
    requires i < |reqs|
    ensures i in Firsts(d, chain, reqs, |reqs|) <==> IsFirst(d, chain, reqs, i)
  {
    var f := Firsts(d, chain, reqs, |reqs|);
    if i in f {
      var k :| 0 <= k < |f| && f[k] == i;
    }
  }

  /** Which positions are not processed, in terms of the requests alone: exactly those that repeat an
      earlier one. */
  lemma SkippedIff(d: Digest, chain: Chain, reqs: seq<Request>, i: nat)
    requires CollisionFree(d) && i < |reqs|
    ensures i !in Firsts(d, chain, reqs, |reqs|) <==> exists j :: 0 <= j < i && Repeats(chain, reqs[i], reqs[j])
  {
    ProcessedIff(d, chain, reqs, i);
    forall j | 0 <= j < i ensures Same(d, chain, reqs, i, j) <==> Repeats(chain, reqs[i], reqs[j]) {
      SameIsRepeat(d, chain, reqs, i, j);
    }
  }

  /** A transaction that a batch submits twice is sent twice. */
  lemma TransactionsAreAllSent(d: Digest, chain: Chain, tx: Json, id: Json, other: Json)
    requires CollisionFree(d)
    ensures
      var reqs := [Request("eth_sendRawTransaction", tx, id), Request("eth_sendRawTransaction", tx, other)];
      Firsts(d, chain, reqs, 2) == [0, 1]
  {
    var reqs := [Request("eth_sendRawTransaction", tx, id), Request("eth_sendRawTransaction", tx, other)];
    SkippedIff(d, chain, reqs, 0);
    SkippedIff(d, chain, reqs, 1);
    assert Firsts(d, chain, reqs, 1) == [0];
  }

  function Pick(reqs: seq<Request>, at: seq<nat>): seq<Request>
    requires forall k :: 0 <= k < |at| ==> at[k] < |reqs|
  {
    seq(|at|, k requires 0 <= k < |at| => reqs[at[k]])
  }

  /** One step of a server with a state: the answer to a request, and the next state. */
  type Server<!S> = (S, Request) -> (Response, S)

  /** The reference: every request of a list is processed, in order. */
  function Serve<S>(server: Server<S>, s: S, reqs: seq<Request>): (r: (seq<Response>, S))
    ensures |r.0| == |reqs|
  {
    if reqs == [] then ([], s)
    else
      var n := |reqs| - 1;
      var before := Serve(server, s, reqs[..n]);
      var last := server(before.1, reqs[n]);
      (before.0 + [last.0], last.1)
  }

  /** What the second pass has filled in after i positions. */
  ghost predicate Filled(responses: seq<Option<Response>>, answers: seq<Response>, firsts: seq<nat>) {
    && |answers| == |firsts|
    && forall k :: 0 <= k < |firsts| ==>
         firsts[k] < |responses| && responses[firsts[k]] == Some(answers[k])
  }

  /** The third pass and the unwrapping. */
  method FillDuplicates(responses: array<Option<Response>>, dedupMap: array<Option<nat>>, ids: seq<Json>)
      returns (out: seq<Response>)
    requires responses != dedupMap as object
    requires responses.Length == dedupMap.Length == |ids|
    requires forall i :: 0 <= i < responses.Length ==>
      match dedupMap[i]
      case None => responses[i].Some?
      case Some(j) => j < responses.Length && dedupMap[j] == None
    modifies responses
    ensures |out| == |ids|
    ensures forall i :: 0 <= i < |ids| ==>
      out[i] == match dedupMap[i]
                case None => old(responses[i]).value
                case Some(j) => old(responses[j]).value.(id := ids[i])
  {
    for i := 0 to responses.Length
      invariant forall k :: 0 <= k < responses.Length && (i <= k || dedupMap[k] == None) ==>
        responses[k] == old(responses[k])
      invariant forall k :: 0 <= k < i && dedupMap[k].Some? ==>
        responses[k] == Some(old(responses[dedupMap[k].value]).value.(id := ids[k]))
    {
      if dedupMap[i].Some? && responses[dedupMap[i].value].Some? {
        responses[i] := Some(responses[dedupMap[i].value].value.(id := ids[i]));
      }
    }
    out := [];
    for i := 0 to responses.Length
      invariant |out| == i
      invariant forall k :: 0 <= k < i ==> responses[k] == Some(out[k])
    {
      out := out + [responses[i].value];
    }
  }

  /** What the first pass notes for a position: nothing at a first occurrence, otherwise the first
      occurrence that the position repeats. */
  ghost predicate Noted(d: Digest, chain: Chain, reqs: seq<Request>, i: nat, note: Option<nat>)
    requires i < |reqs|
  {
    match note
    case None => IsFirst(d, chain, reqs, i)
    case Some(j) => j < i && Same(d, chain, reqs, i, j) && IsFirst(d, chain, reqs, j)
  }

  /** The keys seen among the first i positions, each with its first occurrence. */
  ghost predicate Seen(d: Digest, chain: Chain, reqs: seq<Request>, i: nat, seen: map<string, nat>)
    requires i <= |reqs|
  {
    && (forall key :: key in seen ==>
          && seen[key] < i && Dedupable(chain, reqs[seen[key]])
          && KeyOf(d, chain.chainId, reqs[seen[key]]) == key && IsFirst(d, chain, reqs, seen[key]))
    && (forall k :: 0 <= k < i && Dedupable(chain, reqs[k]) ==> KeyOf(d, chain.chainId, reqs[k]) in seen)
  }

  /** The state of the first pass after i positions. */
  ghost predicate Scanned(d: Digest, chain: Chain, reqs: seq<Request>, i: nat,
                          notes: seq<Option<nat>>, seen: map<string, nat>)
  {
    && i <= |reqs| == |notes| && Seen(d, chain, reqs, i, seen)
    && (forall k :: 0 <= k < i ==> Noted(d, chain, reqs, k, notes[k]))
    && (forall k :: i <= k < |reqs| ==> notes[k] == None)
  }

  lemma SeenNext(d: Digest, chain: Chain, reqs: seq<Request>, i: nat, seen: map<string, nat>)
    requires i < |reqs| && Seen(d, chain, reqs, i, seen)
    ensures
      var key := KeyOf(d, chain.chainId, reqs[i]);
      Seen(d, chain, reqs, i + 1, if Dedupable(chain, reqs[i]) && key !in seen then seen[key := i] else seen)
  {
    FirstWhenUnseen(d, chain, reqs, i, seen);
  }

  lemma FirstWhenUnseen(d: Digest, chain: Chain, reqs: seq<Request>, i: nat, seen: map<string, nat>)
    requires i < |reqs| && Seen(d, chain, reqs, i, seen)
    ensures !Dedupable(chain, reqs[i]) || KeyOf(d, chain.chainId, reqs[i]) !in seen ==> IsFirst(d, chain, reqs, i)
  {
  }

  /** What the first pass notes for position i. */
  function NoteFor(d: Digest, chain: Chain, req: Request, seen: map<string, nat>): Option<nat> {
    var key := KeyOf(d, chain.chainId, req);
    if Dedupable(chain, req) && key in seen then Some(seen[key]) else None
  }

  lemma NoteIsRight(d: Digest, chain: Chain, reqs: seq<Request>, i: nat, seen: map<string, nat>)
    requires i < |reqs| && Seen(d, chain, reqs, i, seen)
    ensures Noted(d, chain, reqs, i, NoteFor(d, chain, reqs[i], seen))
  {
    FirstWhenUnseen(d, chain, reqs, i, seen);
  }

  lemma ScanNext(d: Digest, chain: Chain, reqs: seq<Request>, i: nat, notes: seq<Option<nat>>, seen: map<string, nat>)
    requires i < |reqs| && Scanned(d, chain, reqs, i, notes, seen)
    ensures
      var key := KeyOf(d, chain.chainId, reqs[i]);
      Scanned(d, chain, reqs, i + 1, notes[i := NoteFor(d, chain, reqs[i], seen)],
              if Dedupable(chain, reqs[i]) && key !in seen then seen[key := i] else seen)
  {
    SeenNext(d, chain, reqs, i, seen);
    NoteIsRight(d, chain, reqs, i, seen);
  }

  /** The first pass. */
  method FindDuplicates(d: Digest, chain: Chain, reqs: seq<Request>) returns (dedupMap: array<Option<nat>>)
    ensures fresh(dedupMap) && dedupMap.Length == |reqs|
    ensures forall i :: 0 <= i < |reqs| ==> Noted(d, chain, reqs, i, dedupMap[i])
  {
    dedupMap := new Option<nat>[|reqs|](_ => None);
    var seen: map<string, nat> := map[];
    for i := 0 to |reqs|
      invariant Scanned(d, chain, reqs, i, dedupMap[..], seen)
    {
      ghost var notes := dedupMap[..];
      ScanNext(d, chain, reqs, i, notes, seen);
      var req := reqs[i];
      if !IsUncacheable(req.rpcMethod) && !IsMethodBlocked(req.rpcMethod, chain.blocked) {
        var key := KeyOf(d, chain.chainId, req);
        if key in seen {
          dedupMap[i] := Some(seen[key]);
        } else {
          seen := seen[key := i];
        }
      }
      assert dedupMap[..] == notes[i := dedupMap[i]];
    }
    ghost var notes := dedupMap[..];
    assert forall k :: 0 <= k < |reqs| ==> notes[k] == dedupMap[k];
  }

  /** The positions among the first n without a note. */
  function Unnoted(notes: seq<Option<nat>>, n: nat): (f: seq<nat>)
    requires n <= |notes|
    ensures forall k :: 0 <= k < |f| ==> f[k] < n && notes[f[k]] == None
    ensures forall i :: 0 <= i < n && notes[i] == None ==> i in f
  {
    if n == 0 then []
    else if notes[n - 1] == None then Unnoted(notes, n - 1) + [n - 1]
    else Unnoted(notes, n - 1)
  }

  /** After the first pass these are the first occurrences. */
  lemma {:induction false} UnnotedAreFirsts(d: Digest, chain: Chain, reqs: seq<Request>, notes: seq<Option<nat>>, n: nat)
    requires n <= |reqs| == |notes|
    requires forall i :: 0 <= i < |reqs| ==> (notes[i] == None <==> IsFirst(d, chain, reqs, i))
    ensures Unnoted(notes, n) == Firsts(d, chain, reqs, n)
  {
    if n > 0 {
      UnnotedAreFirsts(d, chain, reqs, notes, n - 1);
    }
  }

  /** After i positions the server has answered those without a note, and the answers are in. */
  ghost predicate ServedUpTo<S>(server: Server<S>, start: S, reqs: seq<Request>, notes: seq<Option<nat>>, i: nat,
                                responses: seq<Option<Response>>, answers: seq<Response>, s: S)
    requires i <= |reqs| == |notes|
  {
    && (answers, s) == Serve(server, start, Pick(reqs, Unnoted(notes, i)))
    && Filled(responses, answers, Unnoted(notes, i))
  }

  lemma NothingServed<S>(server: Server<S>, start: S, reqs: seq<Request>, notes: seq<Option<nat>>,
                         responses: seq<Option<Response>>)
    requires |reqs| == |notes|
    ensures ServedUpTo(server, start, reqs, notes, 0, responses, [], start)
  {
    assert Pick(reqs, []) == [];
  }

  lemma ServeOneMore<S>(server: Server<S>, start: S, reqs: seq<Request>, at: seq<nat>, i: nat)
    requires i < |reqs| && forall k :: 0 <= k < |at| ==> at[k] < |reqs|
    ensures
      var before := Serve(server, start, Pick(reqs, at));
      var last := server(before.1, reqs[i]);
      Serve(server, start, Pick(reqs, at + [i])) == (before.0 + [last.0], last.1)
  {
    assert Pick(reqs, at + [i])[..|at|] == Pick(reqs, at);
  }

  lemma ServedNext<S>(server: Server<S>, start: S, reqs: seq<Request>, notes: seq<Option<nat>>, i: nat,
                      responses: seq<Option<Response>>, answers: seq<Response>, s: S)
    requires i < |reqs| == |notes| == |responses|
    requires ServedUpTo(server, start, reqs, notes, i, responses, answers, s)
    ensures
      if notes[i] == None then
        var answer := server(s, reqs[i]);
        ServedUpTo(server, start, reqs, notes, i + 1, responses[i := Some(answer.0)], answers + [answer.0], answer.1)
      else ServedUpTo(server, start, reqs, notes, i + 1, responses, answers, s)
  {
    ServeOneMore(server, start, reqs, Unnoted(notes, i), i);
  }

  /** The second pass: processes the positions without a note, in order. */
  method ProcessFirsts<S>(server: Server<S>, start: S, reqs: seq<Request>, dedupMap: array<Option<nat>>)
      returns (responses: array<Option<Response>>, s: S, ghost answers: seq<Response>)
    requires dedupMap.Length == |reqs|
    ensures fresh(responses) && responses.Length == |reqs|
    ensures ServedUpTo(server, start, reqs, dedupMap[..], |reqs|, responses[..], answers, s)
  {
    responses := new Option<Response>[|reqs|](_ => None);
    s, answers := start, [];
    ghost var notes := dedupMap[..];
    NothingServed(server, start, reqs, notes, responses[..]);
    for i := 0 to |reqs|
      invariant ServedUpTo(server, start, reqs, notes, i, responses[..], answers, s)
    {
      s, answers := ProcessUnlessDuplicate(server, start, reqs, notes, i, dedupMap[i], responses, s, answers);
    }
  }

  /** One position of the second pass. */
  method ProcessUnlessDuplicate<S>(server: Server<S>, ghost start: S, reqs: seq<Request>, ghost notes: seq<Option<nat>>,
                                   i: nat, note: Option<nat>,
                                   responses: array<Option<Response>>, s: S, ghost answers: seq<Response>)
      returns (after: S, ghost answered: seq<Response>)
    requires i < |reqs| == |notes| == responses.Length && note == notes[i]
    requires ServedUpTo(server, start, reqs, notes, i, responses[..], answers, s)
    modifies responses
    ensures ServedUpTo(server, start, reqs, notes, i + 1, responses[..], answered, after)
  {
    ghost var filled := responses[..];
    ServedNext(server, start, reqs, notes, i, filled, answers, s);
    after, answered := s, answers;
    if note == None {
      var answer := server(s, reqs[i]);
      responses[i] := Some(answer.0);
      assert responses[..] == filled[i := Some(answer.0)];
      after, answered := answer.1, answers + [answer.0];
    }
  }

  /** Position i repeats first occurrence j, and gets its answer with its own id. */
  ghost predicate CopiesFirst(d: Digest, chain: Chain, reqs: seq<Request>, out: seq<Response>, i: nat, j: nat)
    requires i < |reqs| == |out|
  {
    j < i && Same(d, chain, reqs, i, j) && IsFirst(d, chain, reqs, j) && out[i] == out[j].(id := reqs[i].id)
  }

  /** The answers to a batch: at the first occurrences, in order, what processing just those requests
      gives; everywhere else a copy of a first occurrence, with the position's own id. */
  ghost predicate BatchAnswers<S>(d: Digest, chain: Chain, server: Server<S>, start: S,
                                  reqs: seq<Request>, out: seq<Response>)
  {
    && |out| == |reqs|
    && (var firsts := Firsts(d, chain, reqs, |reqs|);
        forall k :: 0 <= k < |firsts| ==> out[firsts[k]] == Serve(server, start, Pick(reqs, firsts)).0[k])
    && (forall i :: 0 <= i < |reqs| && !IsFirst(d, chain, reqs, i) ==>
          exists j :: CopiesFirst(d, chain, reqs, out, i, j))
  }

  /** Processes a batch: every first occurrence in order, and copies for the rest. */
  method ProcessBatch<S>(d: Digest, chain: Chain, server: Server<S>, start: S, reqs: seq<Request>)
      returns (out: seq<Response>, s: S)
    ensures s == Serve(server, start, Pick(reqs, Firsts(d, chain, reqs, |reqs|))).1
    ensures BatchAnswers(d, chain, server, start, reqs, out)
  {
    var dedupMap := FindDuplicates(d, chain, reqs);
    forall i | 0 <= i < |reqs| ensures dedupMap[i] == None <==> IsFirst(d, chain, reqs, i) {
      assert Noted(d, chain, reqs, i, dedupMap[i]);
      if dedupMap[i].Some? { assert Same(d, chain, reqs, i, dedupMap[i].value); }
    }
    var responses, final, answers := ProcessFirsts(server, start, reqs, dedupMap);
    UnnotedAreFirsts(d, chain, reqs, dedupMap[..], |reqs|);
    s := final;
    ghost var firsts, filled := Firsts(d, chain, reqs, |reqs|), responses[..];
    forall i | 0 <= i < |reqs| && dedupMap[i] == None ensures responses[i].Some? {
      assert i in firsts;
      var k :| 0 <= k < |firsts| && firsts[k] == i;
      assert filled[firsts[k]] == Some(answers[k]);
    }
    out := FillDuplicates(responses, dedupMap, seq(|reqs|, i requires 0 <= i < |reqs| => reqs[i].id));
    forall k | 0 <= k < |firsts| ensures out[firsts[k]] == answers[k] {
      assert IsFirst(d, chain, reqs, firsts[k]) && filled[firsts[k]] == Some(answers[k]);
    }
    forall i | 0 <= i < |reqs| && !IsFirst(d, chain, reqs, i)
      ensures exists j :: CopiesFirst(d, chain, reqs, out, i, j)
    {
      assert Noted(d, chain, reqs, i, dedupMap[i]);
      assert CopiesFirst(d, chain, reqs, out, i, dedupMap[i].value);
    }
  }

  // ---------- what deduplication cannot change ----------

  lemma {:induction false} ServeKeepsIds<S(!new)>(server: Server<S>, s: S, reqs: seq<Request>)
    requires forall t, r :: server(t, r).0.id == r.id
    ensures forall k :: 0 <= k < |reqs| ==> Serve(server, s, reqs).0[k].id == reqs[k].id
  {
    if reqs != [] {
      ServeKeepsIds(server, s, reqs[..|reqs| - 1]);
    }
  }

  /** If processing keeps ids, every answer of a batch has the id of its request. */
  lemma BatchKeepsIds<S(!new)>(d: Digest, chain: Chain, server: Server<S>, start: S, reqs: seq<Request>, out: seq<Response>)
    requires forall t, r :: server(t, r).0.id == r.id
    requires BatchAnswers(d, chain, server, start, reqs, out)
    ensures forall i :: 0 <= i < |reqs| ==> out[i].id == reqs[i].id
  {
    var firsts := Firsts(d, chain, reqs, |reqs|);
    ServeKeepsIds(server, start, Pick(reqs, firsts));
    forall i | 0 <= i < |reqs| ensures out[i].id == reqs[i].id {
      if IsFirst(d, chain, reqs, i) {
        var k :| 0 <= k < |firsts| && firsts[k] == i;
        assert Pick(reqs, firsts)[k] == reqs[i];
      } else {
        var j :| CopiesFirst(d, chain, reqs, out, i, j);
      }
    }
  }

  /** In every state with the invariant, the server's answer is a good one, and it keeps to such states. */
  ghost predicate Behaves<S(!new)>(server: Server<S>, inv: S -> bool, good: (S, Request, Response) -> bool) {
    forall s, r :: inv(s) ==> good(s, r, server(s, r).0) && inv(server(s, r).1)
  }

  lemma {:induction false} ServeKeeps<S(!new)>(server: Server<S>, inv: S -> bool, good: (S, Request, Response) -> bool,
                                               s: S, reqs: seq<Request>)
    requires Behaves(server, inv, good) && inv(s)
    ensures inv(Serve(server, s, reqs).1)
  {
    if reqs != [] {
      ServeKeeps(server, inv, good, s, reqs[..|reqs| - 1]);
    }
  }

  lemma {:induction false} ServeBehaves<S(!new)>(server: Server<S>, inv: S -> bool, good: (S, Request, Response) -> bool,
                                                 s: S, reqs: seq<Request>, k: nat)
    requires Behaves(server, inv, good) && inv(s) && k < |reqs|
    ensures good(Serve(server, s, reqs[..k]).1, reqs[k], Serve(server, s, reqs).0[k])
  {
    var n := |reqs| - 1;
    if k < n {
      ServeBehaves(server, inv, good, s, reqs[..n], k);
      assert reqs[..n][..k] == reqs[..k];
    } else {
      ServeKeeps(server, inv, good, s, reqs[..n]);
    }
  }

  /** The answer of a batch to its k-th first occurrence is one the server gave when it had
      processed the k before it. */
  lemma FirstBehaves<S(!new)>(d: Digest, chain: Chain, server: Server<S>, inv: S -> bool,
                              good: (S, Request, Response) -> bool,
                              start: S, reqs: seq<Request>, out: seq<Response>, k: nat)
    requires Behaves(server, inv, good) && inv(start)
    requires BatchAnswers(d, chain, server, start, reqs, out) && k < |Firsts(d, chain, reqs, |reqs|)|
    ensures
      var firsts := Firsts(d, chain, reqs, |reqs|);
      good(Serve(server, start, Pick(reqs, firsts)[..k]).1, reqs[firsts[k]], out[firsts[k]])
  {
    var firsts := Firsts(d, chain, reqs, |reqs|);
    ServeBehaves(server, inv, good, start, Pick(reqs, firsts), k);
    assert Pick(reqs, firsts)[k] == reqs[firsts[k]];
  }

  lemma FirstIsListed(d: Digest, chain: Chain, reqs: seq<Request>, i: nat) returns (k: nat)
    requires i < |reqs| && IsFirst(d, chain, reqs, i)
    ensures k < |Firsts(d, chain, reqs, |reqs|)| && Firsts(d, chain, reqs, |reqs|)[k] == i
  {
    k :| 0 <= k < |Firsts(d, chain, reqs, |reqs|)| && Firsts(d, chain, reqs, |reqs|)[k] == i;
  }

  lemma CopyIsListed<S>(d: Digest, chain: Chain, server: Server<S>, start: S, reqs: seq<Request>, out: seq<Response>, i: nat)
      returns (k: nat)
    requires BatchAnswers(d, chain, server, start, reqs, out) && i < |reqs| && !IsFirst(d, chain, reqs, i)
    ensures k < |Firsts(d, chain, reqs, |reqs|)| && CopiesFirst(d, chain, reqs, out, i, Firsts(d, chain, reqs, |reqs|)[k])
  {
    var j: nat :| CopiesFirst(d, chain, reqs, out, i, j);
    k := FirstIsListed(d, chain, reqs, j);
  }

  /** The answer is the direct one, whatever the state. */
  ghost function IsDirect<S(!new)>(direct: Request -> Response): (S, Request, Response) -> bool {
    (s, r, out) => out == direct(r)
  }

  lemma FirstIsDirect<S(!new)>(d: Digest, chain: Chain, server: Server<S>, inv: S -> bool, direct: Request -> Response,
                               start: S, reqs: seq<Request>, out: seq<Response>, i: nat)
    requires Behaves(server, inv, IsDirect(direct)) && inv(start)
    requires BatchAnswers(d, chain, server, start, reqs, out) && i < |reqs| && IsFirst(d, chain, reqs, i)
    ensures out[i] == direct(reqs[i])
  {
    var k := FirstIsListed(d, chain, reqs, i);
    FirstBehaves(d, chain, server, inv, IsDirect(direct), start, reqs, out, k);
  }

  /** The answer depends on the id only by carrying it. */
  ghost predicate CarriesId(direct: Request -> Response) {
    forall r: Request, id: Json :: direct(r.(id := id)) == direct(r).(id := id)
  }

  lemma CopyIsDirect(d: Digest, chain: Chain, direct: Request -> Response, reqs: seq<Request>,
                     out: seq<Response>, i: nat, j: nat)
    requires CollisionFree(d) && CarriesId(direct)
    requires i < |reqs| == |out| && CopiesFirst(d, chain, reqs, out, i, j) && out[j] == direct(reqs[j])
    ensures out[i] == direct(reqs[i])
  {
    SameKeyIff(d, chain.chainId, reqs[i], reqs[j]);
    assert reqs[i] == reqs[j].(id := reqs[i].id);
  }

  lemma DirectKeepsId(direct: Request -> Response, r: Request)
    requires CarriesId(direct)
    ensures direct(r).id == r.id
  {
    assert r == r.(id := r.id);
  }

  lemma PositionIsDirect<S(!new)>(d: Digest, chain: Chain, server: Server<S>, inv: S -> bool, direct: Request -> Response,
                                  start: S, reqs: seq<Request>, out: seq<Response>, i: nat)
    requires CollisionFree(d) && Behaves(server, inv, IsDirect(direct)) && inv(start)
    requires CarriesId(direct)
    requires BatchAnswers(d, chain, server, start, reqs, out) && i < |reqs|
    ensures out[i] == direct(reqs[i]) && out[i].id == reqs[i].id
  {
    DirectKeepsId(direct, reqs[i]);
    if IsFirst(d, chain, reqs, i) {
      FirstIsDirect(d, chain, server, inv, direct, start, reqs, out, i);
    } else {
      var k := CopyIsListed(d, chain, server, start, reqs, out, i);
      var j := Firsts(d, chain, reqs, |reqs|)[k];
      FirstIsDirect(d, chain, server, inv, direct, start, reqs, out, j);
      CopyIsDirect(d, chain, direct, reqs, out, i, j);
    }
  }

  /** If the server's answers depend on the request alone, and on its id only by carrying it,
      then a batch is answered position by position as if every request had been processed on its
      own, although duplicates were not processed at all. */
  lemma DedupIsInvisible<S(!new)>(d: Digest, chain: Chain, server: Server<S>, inv: S -> bool, direct: Request -> Response,
                            start: S, reqs: seq<Request>, out: seq<Response>)
    requires CollisionFree(d) && Behaves(server, inv, IsDirect(direct)) && inv(start)
    requires CarriesId(direct)
    requires BatchAnswers(d, chain, server, start, reqs, out)
    ensures forall i :: 0 <= i < |reqs| ==> out[i] == direct(reqs[i]) && out[i].id == reqs[i].id
    ensures out == Serve(server, start, reqs).0
  {
    forall i | 0 <= i < |reqs| ensures out[i] == direct(reqs[i]) && out[i].id == reqs[i].id {
      PositionIsDirect(d, chain, server, inv, direct, start, reqs, out, i);
    }
    ServeIsDirect(server, inv, direct, start, reqs);
  }

  lemma ServeIsDirect<S(!new)>(server: Server<S>, inv: S -> bool, direct: Request -> Response, start: S, reqs: seq<Request>)
    requires Behaves(server, inv, IsDirect(direct)) && inv(start)
    ensures forall i :: 0 <= i < |reqs| ==> Serve(server, start, reqs).0[i] == direct(reqs[i])
  {
    forall i | 0 <= i < |reqs| ensures Serve(server, start, reqs).0[i] == direct(reqs[i]) {
      ServeBehaves(server, inv, IsDirect(direct), start, reqs, i);
    }
  }

  // ---------- batches over the cache ----------

  /** The surroundings of the n-th request that is processed, whichever it is. */
  type Circumstances = (nat, Request) -> Surroundings

  /** The cache, and how many requests were processed. */
  datatype Progress = Progress(store: Store, processed: nat)

  function HandleOne(cfg: Config, chain: Chain, env: Circumstances, state: Progress, req: Request)
    : (r: (Response, Progress))
    ensures r.1.processed == state.processed + 1
  {
    var done := Process(cfg, chain, state.store, req, env(state.processed, req));
    (done.0, Progress(done.1, state.processed + 1))
  }

  /** The handler of single requests as a server. */
  function Handler(cfg: Config, chain: Chain, env: Circumstances): Server<Progress> {
    (state, req) => HandleOne(cfg, chain, env, state, req)
  }

  /** The answer is the one without a cache, at the head known then, but for the id; and the id is
      right exactly when the answer was not taken over from a call with another id. */
  ghost predicate AnswersAsDirect(cfg: Config, chain: Chain, oracle: Oracle, env: Circumstances,
                                  state: Progress, req: Request, out: Response)
  {
    var e := env(state.processed, req);
    var direct := Direct(chain, oracle, req, e.latest);
    && out.(id := Null) == direct.(id := Null)
    && (out == direct <==> (TakesOver(cfg, chain, state.store, req, e) ==> e.coalesced.value.id == req.id))
  }

  ghost predicate AllFromOracle(chain: Chain, oracle: Oracle, env: Circumstances) {
    forall n, r :: FromOracle(chain, oracle, r, env(n, r))
  }

  ghost function GoodAnswers(cfg: Config, chain: Chain, oracle: Oracle, env: Circumstances)
    : (Progress, Request, Response) -> bool
  {
    (state: Progress, r, out) => AnswersAsDirect(cfg, chain, oracle, env, state, r, out)
  }

  ghost function CoherentProgress(cfg: Config, chain: Chain, oracle: Oracle): Progress -> bool {
    (state: Progress) => Coherent(cfg, chain.chainId, oracle, state.store)
  }

  /** The handler gives such answers over every coherent cache, and keeps the cache coherent. */
  lemma HandlerBehaves(cfg: Config, chain: Chain, oracle: Oracle, env: Circumstances)
    requires CollisionFree(cfg.digest) && AllFromOracle(chain, oracle, env)
    ensures Behaves(Handler(cfg, chain, env), CoherentProgress(cfg, chain, oracle), GoodAnswers(cfg, chain, oracle, env))
  {
    forall state: Progress, r | Coherent(cfg, chain.chainId, oracle, state.store)
      ensures AnswersAsDirect(cfg, chain, oracle, env, state, r, HandleOne(cfg, chain, env, state, r).0)
      ensures Coherent(cfg, chain.chainId, oracle, HandleOne(cfg, chain, env, state, r).1.store)
    {
      CacheIsInvisible(cfg, chain, oracle, state.store, r, env(state.processed, r));
    }
  }

  ghost function GoodUpToId(chain: Chain, oracle: Oracle, env: Circumstances): (Progress, Request, Response) -> bool {
    (state: Progress, r: Request, out: Response) =>
      out.(id := Null) == Direct(chain, oracle, r, env(state.processed, r).latest).(id := Null)
  }

  lemma HandlerBehavesUpToId(cfg: Config, chain: Chain, oracle: Oracle, env: Circumstances)
    requires CollisionFree(cfg.digest) && AllFromOracle(chain, oracle, env)
    ensures Behaves(Handler(cfg, chain, env), CoherentProgress(cfg, chain, oracle), GoodUpToId(chain, oracle, env))
  {
    forall state: Progress, r | Coherent(cfg, chain.chainId, oracle, state.store)
      ensures HandleOne(cfg, chain, env, state, r).0.(id := Null)
           == Direct(chain, oracle, r, env(state.processed, r).latest).(id := Null)
      ensures Coherent(cfg, chain.chainId, oracle, HandleOne(cfg, chain, env, state, r).1.store)
    {
      CacheIsInvisible(cfg, chain, oracle, state.store, r, env(state.processed, r));
    }
  }

  lemma {:induction false} HandlerCounts(cfg: Config, chain: Chain, env: Circumstances, start: Progress, reqs: seq<Request>)
    ensures Serve(Handler(cfg, chain, env), start, reqs).1.processed == start.processed + |reqs|
  {
    if reqs != [] {
      HandlerCounts(cfg, chain, env, start, reqs[..|reqs| - 1]);
    }
  }

  lemma DirectCarriesId(chain: Chain, oracle: Oracle, r: Request, id: Json, latest: Option<nat>)
    ensures Direct(chain, oracle, r.(id := id), latest) == Direct(chain, oracle, r, latest).(id := id)
  {
    assert NormalizeForCache(Resolved(chain, r.(id := id), latest)) == NormalizeForCache(Resolved(chain, r, latest));
  }

  /** The cache is coherent, and the surroundings answer as the oracle does. */
  ghost predicate OverOracle(cfg: Config, chain: Chain, oracle: Oracle, env: Circumstances, start: Progress) {
    && CollisionFree(cfg.digest) && Coherent(cfg, chain.chainId, oracle, start.store)
    && AllFromOracle(chain, oracle, env)
  }

  /** The handler when it processes the k-th first occurrence. */
  ghost function StateAt(cfg: Config, chain: Chain, env: Circumstances, start: Progress, reqs: seq<Request>, k: nat)
    : Progress
    requires k <= |Firsts(cfg.digest, chain, reqs, |reqs|)|
  {
    Serve(Handler(cfg, chain, env), start, Pick(reqs, Firsts(cfg.digest, chain, reqs, |reqs|))[..k]).1
  }

  /** End to end, whatever changes while a batch is processed: over a coherent cache, a first
      occurrence is answered as without a cache at the head known then, under its own id unless it
      took over the answer of a call with another id. */
  lemma FirstIsTransparent(cfg: Config, chain: Chain, oracle: Oracle, env: Circumstances, start: Progress,
                           reqs: seq<Request>, out: seq<Response>, k: nat)
    requires OverOracle(cfg, chain, oracle, env, start)
    requires BatchAnswers(cfg.digest, chain, Handler(cfg, chain, env), start, reqs, out)
    requires k < |Firsts(cfg.digest, chain, reqs, |reqs|)|
    ensures
      var i, state := Firsts(cfg.digest, chain, reqs, |reqs|)[k], StateAt(cfg, chain, env, start, reqs, k);
      state.processed == start.processed + k && AnswersAsDirect(cfg, chain, oracle, env, state, reqs[i], out[i])
  {
    HandlerBehaves(cfg, chain, oracle, env);
    HandlerCounts(cfg, chain, env, start, Pick(reqs, Firsts(cfg.digest, chain, reqs, |reqs|))[..k]);
    FirstBehaves(cfg.digest, chain, Handler(cfg, chain, env), CoherentProgress(cfg, chain, oracle),
                 GoodAnswers(cfg, chain, oracle, env), start, reqs, out, k);
  }

  lemma FirstUpToId(cfg: Config, chain: Chain, oracle: Oracle, env: Circumstances, start: Progress,
                    reqs: seq<Request>, out: seq<Response>, k: nat)
    requires OverOracle(cfg, chain, oracle, env, start)
    requires BatchAnswers(cfg.digest, chain, Handler(cfg, chain, env), start, reqs, out)
    requires k < |Firsts(cfg.digest, chain, reqs, |reqs|)|
    ensures
      var i, state := Firsts(cfg.digest, chain, reqs, |reqs|)[k], StateAt(cfg, chain, env, start, reqs, k);
      out[i].(id := Null) == Direct(chain, oracle, reqs[i], env(state.processed, reqs[i]).latest).(id := Null)
  {
    HandlerBehavesUpToId(cfg, chain, oracle, env);
    FirstBehaves(cfg.digest, chain, Handler(cfg, chain, env), CoherentProgress(cfg, chain, oracle),
                 GoodUpToId(chain, oracle, env), start, reqs, out, k);
  }

  lemma CopyOverCache(cfg: Config, chain: Chain, oracle: Oracle, reqs: seq<Request>, out: seq<Response>,
                      i: nat, j: nat, latest: Option<nat>)
    requires CollisionFree(cfg.digest) && i < |reqs| == |out| && CopiesFirst(cfg.digest, chain, reqs, out, i, j)
    requires out[j].(id := Null) == Direct(chain, oracle, reqs[j], latest).(id := Null)
    ensures out[i] == Direct(chain, oracle, reqs[i], latest)
  {
    SameKeyIff(cfg.digest, chain.chainId, reqs[i], reqs[j]);
    assert reqs[i] == reqs[j].(id := reqs[i].id);
    DirectCarriesId(chain, oracle, reqs[j], reqs[i].id, latest);
    assert out[j].(id := Null).(id := reqs[i].id) == out[j].(id := reqs[i].id);
    assert Direct(chain, oracle, reqs[j], latest).(id := Null).(id := reqs[i].id)
        == Direct(chain, oracle, reqs[j], latest).(id := reqs[i].id);
  }

  /** Every other position copies a first occurrence.  It is answered exactly as it would have been
      without a cache when that one was processed, under its own id. */
  lemma CopyIsTransparent(cfg: Config, chain: Chain, oracle: Oracle, env: Circumstances, start: Progress,
                          reqs: seq<Request>, out: seq<Response>, i: nat) returns (k: nat)
    requires OverOracle(cfg, chain, oracle, env, start)
    requires BatchAnswers(cfg.digest, chain, Handler(cfg, chain, env), start, reqs, out)
    requires i < |reqs| && !IsFirst(cfg.digest, chain, reqs, i)
    ensures
      var firsts := Firsts(cfg.digest, chain, reqs, |reqs|);
      && k < |firsts| && CopiesFirst(cfg.digest, chain, reqs, out, i, firsts[k])
      && out[i] == Direct(chain, oracle, reqs[i],
                          env(StateAt(cfg, chain, env, start, reqs, k).processed, reqs[firsts[k]]).latest)
  {
    k := CopyIsListed(cfg.digest, chain, Handler(cfg, chain, env), start, reqs, out, i);
    var j := Firsts(cfg.digest, chain, reqs, |reqs|)[k];
    FirstUpToId(cfg, chain, oracle, env, start, reqs, out, k);
    CopyOverCache(cfg, chain, oracle, reqs, out, i, j,
                  env(StateAt(cfg, chain, env, start, reqs, k).processed, reqs[j]).latest);
  }

  /** If the known head does not change meanwhile and nothing is taken over from a call with another
      id, the batch is answered exactly as if neither the cache nor the deduplication existed. */
  lemma BatchIsTransparent(cfg: Config, chain: Chain, oracle: Oracle, env: Circumstances, start: Progress,
                           reqs: seq<Request>, out: seq<Response>, latest: Option<nat>, i: nat)
    requires OverOracle(cfg, chain, oracle, env, start)
    requires BatchAnswers(cfg.digest, chain, Handler(cfg, chain, env), start, reqs, out) && i < |reqs|
    requires forall n, r :: env(n, r).latest == latest
    requires forall n, r :: env(n, r).coalesced.Some? ==> env(n, r).coalesced.value.id == r.id
    ensures out[i] == Direct(chain, oracle, reqs[i], latest)
  {
    if IsFirst(cfg.digest, chain, reqs, i) {
      var k := FirstIsListed(cfg.digest, chain, reqs, i);
      FirstIsTransparent(cfg, chain, oracle, env, start, reqs, out, k);
    } else {
      var k := CopyIsTransparent(cfg, chain, oracle, env, start, reqs, out, i);
    }
  }
}
