/** What the cache guarantees over every run of its writers: upstream answers, blocks, logs and
    reorganizations, in any order, on any chains. */
module CacheRuns {
  import opened Wrappers
  import opened Json
  import opened RpcTypes
  import opened CacheKeys
  import opened CachePolicy
  import opened RedisStore
  import opened CacheLayer

  /** Everything that writes to the cache, with the time at which it does. */
  datatype Event =
    | Answered(chain: nat, req: Request, resp: Response, now: nat)
    | BlockSeen(chain: nat, number: nat, hash: string, block: Json, now: nat)
    | LogsSeen(chain: nat, number: nat, logs: Json, now: nat)
    | Reorganized(chain: nat)

  /** The write that forward_to_upstream makes for an answer (src/rpc/handler.rs). */
  function StoreAnswer(cfg: Config, store: Store, chain: nat, req: Request, resp: Response, now: nat): Store {
    if !IsUncacheable(req.rpcMethod) && resp.error == None then
      StoreReply(cfg, store, chain, req, resp, BlockRefIsUnfinalized(req), now)
    else store
  }

  function Write(cfg: Config, store: Store, e: Event): Store {
    match e
    case Answered(chain, req, resp, now) => StoreAnswer(cfg, store, chain, req, resp, now)
    case BlockSeen(chain, number, hash, block, now) => StoreBlock(cfg, store, chain, number, hash, block, now)
    case LogsSeen(chain, number, logs, now) => StoreLogs(cfg, store, chain, number, logs, now)
    case Reorganized(chain) => InvalidateHead(cfg, store, chain)
  }

  function After(cfg: Config, events: seq<Event>): Store {
    if events == [] then map[]
    else Write(cfg, After(cfg, events[..|events| - 1]), events[|events| - 1])
  }

  // ---------- the head set ----------

  /** What a reorganization must wipe: replies near the head, blocks and logs. */
  predicate Volatile(k: CacheKey) {
    match k
    case Reply(_, norm) => BlockRefIsUnfinalized(norm)
    case HeadSet(_) => false
    case _ => true
  }

  /** Entry k, if there, is a text, and listed in the head set of its chain if it is volatile. */
  ghost predicate Covered(cfg: Config, store: Store, k: CacheKey) {
    !k.HeadSet? && Name(cfg, k) in store ==>
      && store[Name(cfg, k)].Text?
      && (Volatile(k) ==> Name(cfg, k) in MembersOf(store, HeadKey(cfg, k.chain)))
  }

  /** The head set of a chain is a set, and lists only volatile keys of that chain. */
  ghost predicate OnlyVolatile(cfg: Config, store: Store, chain: nat) {
    HeadKey(cfg, chain) in store ==>
      && store[HeadKey(cfg, chain)].Members?
      && forall m :: m in store[HeadKey(cfg, chain)].members ==>
           exists k :: Volatile(k) && k.chain == chain && Name(cfg, k) == m
  }

  ghost predicate Indexed(cfg: Config, store: Store) {
    && (forall k :: Covered(cfg, store, k))
    && (forall chain :: OnlyVolatile(cfg, store, chain))
  }

  lemma NamesDiffer(cfg: Config, a: CacheKey, b: CacheKey)
    requires CollisionFree(cfg.digest) && a != b
    ensures Name(cfg, a) != Name(cfg, b)
  {
    if Name(cfg, a) == Name(cfg, b) {
      EncodeInjective(cfg.digest, a, b);
    }
  }

  /** Writing a text for a key that is not volatile keeps the index. */
  lemma TextKeepsIndex(cfg: Config, store: Store, k: CacheKey, payload: Payload, ttl: nat, now: nat)
    requires CollisionFree(cfg.digest) && Indexed(cfg, store) && !k.HeadSet? && !Volatile(k)
    ensures Indexed(cfg, WithText(store, Name(cfg, k), payload, ttl, now))
  {
    var s := WithText(store, Name(cfg, k), payload, ttl, now);
    forall j ensures Covered(cfg, s, j) {
      assert Covered(cfg, store, j);
      if j != k { NamesDiffer(cfg, j, k); }
      NamesDiffer(cfg, HeadSet(j.chain), k);
    }
    forall chain ensures OnlyVolatile(cfg, s, chain) {
      assert OnlyVolatile(cfg, store, chain);
      NamesDiffer(cfg, HeadSet(chain), k);
    }
  }

  lemma ListingLeaves(cfg: Config, store: Store, j: CacheKey, payload: Payload, ttl: nat, now: nat, k: CacheKey)
    requires CollisionFree(cfg.digest) && k != j && k != HeadSet(j.chain)
    ensures
      var s, n := Listed(cfg, store, j, payload, ttl, now), Name(cfg, k);
      (n in s <==> n in store) && (n in s ==> s[n] == store[n])
  {
    NamesDiffer(cfg, k, j);
    NamesDiffer(cfg, k, HeadSet(j.chain));
  }

  lemma ListingAdds(cfg: Config, store: Store, k: CacheKey, payload: Payload, ttl: nat, now: nat)
    requires CollisionFree(cfg.digest) && !k.HeadSet? && OnlyVolatile(cfg, store, k.chain)
    ensures
      var s := Listed(cfg, store, k, payload, ttl, now);
      && Name(cfg, k) in s && s[Name(cfg, k)].Text?
      && HeadKey(cfg, k.chain) in s && s[HeadKey(cfg, k.chain)].Members?
      && MembersOf(s, HeadKey(cfg, k.chain)) == MembersOf(store, HeadKey(cfg, k.chain)) + {Name(cfg, k)}
  {
    NamesDiffer(cfg, HeadSet(k.chain), k);
  }

  lemma ListingKeepsCovered(cfg: Config, store: Store, k: CacheKey, payload: Payload, ttl: nat, now: nat, j: CacheKey)
    requires CollisionFree(cfg.digest) && !k.HeadSet? && OnlyVolatile(cfg, store, k.chain) && Covered(cfg, store, j)
    ensures Covered(cfg, Listed(cfg, store, k, payload, ttl, now), j)
  {
    ListingAdds(cfg, store, k, payload, ttl, now);
    if !j.HeadSet? {
      if j != k {
        ListingLeaves(cfg, store, k, payload, ttl, now, j);
      }
      if j.chain != k.chain {
        ListingLeaves(cfg, store, k, payload, ttl, now, HeadSet(j.chain));
      }
    }
  }

  lemma ListingKeepsOnlyVolatile(cfg: Config, store: Store, k: CacheKey, payload: Payload, ttl: nat, now: nat, chain: nat)
    requires CollisionFree(cfg.digest) && !k.HeadSet? && Volatile(k)
    requires OnlyVolatile(cfg, store, k.chain) && OnlyVolatile(cfg, store, chain)
    ensures OnlyVolatile(cfg, Listed(cfg, store, k, payload, ttl, now), chain)
  {
    if chain == k.chain {
      ListingAdds(cfg, store, k, payload, ttl, now);
    } else {
      ListingLeaves(cfg, store, k, payload, ttl, now, HeadSet(chain));
    }
  }

  /** Writing a text for a volatile key and then listing it keeps the index. */
  lemma ListedKeepsIndex(cfg: Config, store: Store, k: CacheKey, payload: Payload, ttl: nat, now: nat)
    requires CollisionFree(cfg.digest) && Indexed(cfg, store) && !k.HeadSet? && Volatile(k)
    ensures Indexed(cfg, Listed(cfg, store, k, payload, ttl, now))
  {
    assert OnlyVolatile(cfg, store, k.chain);
    forall j ensures Covered(cfg, Listed(cfg, store, k, payload, ttl, now), j) {
      assert Covered(cfg, store, j);
      ListingKeepsCovered(cfg, store, k, payload, ttl, now, j);
    }
    forall chain ensures OnlyVolatile(cfg, Listed(cfg, store, k, payload, ttl, now), chain) {
      assert OnlyVolatile(cfg, store, chain);
      ListingKeepsOnlyVolatile(cfg, store, k, payload, ttl, now, chain);
    }
  }

  /** The order in which a block's two keys are written and listed does not matter. */
  lemma BlockIsTwoListings(cfg: Config, store: Store, chain: nat, number: nat, hash: string, block: Json, now: nat)
    requires CollisionFree(cfg.digest) && Indexed(cfg, store)
    ensures StoreBlock(cfg, store, chain, number, hash, block, now)
         == Listed(cfg, Listed(cfg, store, BlockNumber(chain, number), ValueText(block), BLOCK_TTL, now),
                   BlockHash(chain, hash), ValueText(block), BLOCK_HASH_TTL, now)
  {
    var a, b, h := BlockNumber(chain, number), BlockHash(chain, hash), HeadSet(chain);
    NamesDiffer(cfg, a, b);
    NamesDiffer(cfg, a, h);
    NamesDiffer(cfg, b, h);
    assert OnlyVolatile(cfg, store, chain);
  }

  lemma InvalidationIsExact(cfg: Config, store: Store, chain: nat, k: CacheKey)
    requires CollisionFree(cfg.digest) && Indexed(cfg, store)
    ensures
      var s, n := InvalidateHead(cfg, store, chain), Name(cfg, k);
      if k == HeadSet(chain) then MembersOf(s, n) == {}
      else if Volatile(k) && k.chain == chain then n !in s
      else (n in s <==> n in store) && (n in s ==> s[n] == store[n])
  {
    var n := Name(cfg, k);
    assert Covered(cfg, store, k) && OnlyVolatile(cfg, store, chain);
    if k != HeadSet(chain) {
      NamesDiffer(cfg, k, HeadSet(chain));
      if n in MembersOf(store, HeadKey(cfg, chain)) {
        var j :| Volatile(j) && j.chain == chain && Name(cfg, j) == n;
        EncodeInjective(cfg.digest, j, k);
      }
    }
  }

  lemma InvalidationKeepsIndex(cfg: Config, store: Store, chain: nat)
    requires CollisionFree(cfg.digest) && Indexed(cfg, store)
    ensures Indexed(cfg, InvalidateHead(cfg, store, chain))
  {
    var s := InvalidateHead(cfg, store, chain);
    forall j ensures Covered(cfg, s, j) {
      assert Covered(cfg, store, j);
      InvalidationIsExact(cfg, store, chain, j);
      InvalidationIsExact(cfg, store, chain, HeadSet(j.chain));
    }
    forall c ensures OnlyVolatile(cfg, s, c) {
      assert OnlyVolatile(cfg, store, c);
      InvalidationIsExact(cfg, store, chain, HeadSet(c));
    }
  }

  lemma NormalizingKeepsFinality(req: Request)
    ensures BlockRefIsUnfinalized(NormalizeForCache(req)) == BlockRefIsUnfinalized(req)
  {
  }

  lemma WriteKeepsIndex(cfg: Config, store: Store, e: Event)
    requires CollisionFree(cfg.digest) && Indexed(cfg, store)
    ensures Indexed(cfg, Write(cfg, store, e))
  {
    match e
    case Answered(chain, req, resp, now) =>
      NormalizingKeepsFinality(req);
      var ttl := ResolveTtl(cfg.policies, req.rpcMethod, BlockRefIsUnfinalized(req));
      if ttl.Some? {
        var k := Reply(chain, NormalizeForCache(req));
        if Volatile(k) {
          ListedKeepsIndex(cfg, store, k, ReplyText(resp), ttl.value, now);
        } else {
          TextKeepsIndex(cfg, store, k, ReplyText(resp), ttl.value, now);
        }
      }
    case BlockSeen(chain, number, hash, block, now) =>
      BlockIsTwoListings(cfg, store, chain, number, hash, block, now);
      ListedKeepsIndex(cfg, store, BlockNumber(chain, number), ValueText(block), BLOCK_TTL, now);
      ListedKeepsIndex(cfg, Listed(cfg, store, BlockNumber(chain, number), ValueText(block), BLOCK_TTL, now),
                       BlockHash(chain, hash), ValueText(block), BLOCK_HASH_TTL, now);
    case LogsSeen(chain, number, logs, now) =>
      ListedKeepsIndex(cfg, store, BlockLogs(chain, number), ValueText(logs), LOGS_TTL, now);
    case Reorganized(chain) => InvalidationKeepsIndex(cfg, store, chain);
  }

  /** After every run, every volatile entry of a chain is in that chain's head set, and the head
      set lists nothing else. */
  lemma {:induction false} HeadSetIsComplete(cfg: Config, events: seq<Event>)
    requires CollisionFree(cfg.digest)
    ensures Indexed(cfg, After(cfg, events))
  {
    if events != [] {
      HeadSetIsComplete(cfg, events[..|events| - 1]);
      WriteKeepsIndex(cfg, After(cfg, events[..|events| - 1]), events[|events| - 1]);
    }
  }

  /** After every run, a reorganization of a chain removes every volatile entry of that chain and
      leaves every finalized reply and every entry of every other chain as it was. */
  lemma ReorgWipesExactly(cfg: Config, events: seq<Event>, chain: nat, k: CacheKey)
    requires CollisionFree(cfg.digest) && !k.HeadSet?
    ensures
      var before, after, n := After(cfg, events), After(cfg, events + [Reorganized(chain)]), Name(cfg, k);
      if Volatile(k) && k.chain == chain then n !in after
      else (n in after <==> n in before) && (n in after ==> after[n] == before[n])
  {
    assert (events + [Reorganized(chain)])[..|events|] == events;
    HeadSetIsComplete(cfg, events);
    InvalidationIsExact(cfg, After(cfg, events), chain, k);
  }

  // ---------- blocks and logs ----------

  /** A text is found under a key until its time is up. */
  ghost predicate HasUntil(cfg: Config, store: Store, k: CacheKey, payload: Payload, end: nat) {
    forall at: nat :: Lookup(store, Name(cfg, k), at) == if at < end then Some(payload) else None
  }

  lemma ListingIsFound(cfg: Config, store: Store, k: CacheKey, payload: Payload, ttl: nat, now: nat)
    requires CollisionFree(cfg.digest) && Indexed(cfg, store) && !k.HeadSet? && ttl > 0
    ensures HasUntil(cfg, Listed(cfg, store, k, payload, ttl, now), k, payload, now + ttl)
  {
    assert OnlyVolatile(cfg, store, k.chain);
    NamesDiffer(cfg, k, HeadSet(k.chain));
  }

  /** A block is found by its number for a minute and by its hash for an hour. */
  lemma BlockIsFound(cfg: Config, store: Store, chain: nat, number: nat, hash: string, block: Json, now: nat)
    requires CollisionFree(cfg.digest) && Indexed(cfg, store)
    ensures
      var s := StoreBlock(cfg, store, chain, number, hash, block, now);
      && Indexed(cfg, s)
      && HasUntil(cfg, s, BlockNumber(chain, number), ValueText(block), now + 60_000)
      && HasUntil(cfg, s, BlockHash(chain, hash), ValueText(block), now + 3_600_000)
  {
    var a, b := BlockNumber(chain, number), BlockHash(chain, hash);
    var s := Listed(cfg, store, a, ValueText(block), BLOCK_TTL, now);
    BlockIsTwoListings(cfg, store, chain, number, hash, block, now);
    ListedKeepsIndex(cfg, store, a, ValueText(block), BLOCK_TTL, now);
    ListedKeepsIndex(cfg, s, b, ValueText(block), BLOCK_HASH_TTL, now);
    ListingIsFound(cfg, store, a, ValueText(block), BLOCK_TTL, now);
    ListingIsFound(cfg, s, b, ValueText(block), BLOCK_HASH_TTL, now);
    ListingLeaves(cfg, s, b, ValueText(block), BLOCK_HASH_TTL, now, a);
  }

  /** Storing logs leaves what is found under any other key. */
  lemma LogsLeaveFound(cfg: Config, store: Store, chain: nat, number: nat, logs: Json, now: nat,
                       k: CacheKey, payload: Payload, end: nat)
    requires CollisionFree(cfg.digest) && k != BlockLogs(chain, number) && k != HeadSet(chain)
    requires HasUntil(cfg, store, k, payload, end)
    ensures HasUntil(cfg, StoreLogs(cfg, store, chain, number, logs, now), k, payload, end)
  {
    ListingLeaves(cfg, store, BlockLogs(chain, number), ValueText(logs), LOGS_TTL, now, k);
    forall at: nat
      ensures Lookup(StoreLogs(cfg, store, chain, number, logs, now), Name(cfg, k), at) == Lookup(store, Name(cfg, k), at)
    {
    }
  }

  // ---------- where replies come from ----------

  /** The event is an answer that is kept under key k: error-free, to a request with the same method
      and parameters on the same chain, whose method may be cached and which the policy does not rule
      out. */
  predicate Keeps(cfg: Config, e: Event, k: CacheKey) {
    && k.Reply? && e.Answered? && e.chain == k.chain && NormalizeForCache(e.req) == k.norm
    && e.resp.error == None && !IsUncacheable(e.req.rpcMethod)
    && ResolveTtl(cfg.policies, e.req.rpcMethod, BlockRefIsUnfinalized(e.req)).Some?
  }

  /** What is kept: the reply, for as long as the policy says. */
  function KeptItem(cfg: Config, e: Event): Item
    requires e.Answered? && ResolveTtl(cfg.policies, e.req.rpcMethod, BlockRefIsUnfinalized(e.req)).Some?
  {
    Text(ReplyText(e.resp), Expiry(ResolveTtl(cfg.policies, e.req.rpcMethod, BlockRefIsUnfinalized(e.req)).value, e.now))
  }

  /** Entry k is the answer of event i.  No answer was kept under k since, and if k is volatile its
      chain was not reorganized since. */
  ghost predicate StoredAt(cfg: Config, events: seq<Event>, k: CacheKey, item: Item, i: nat) {
    && i < |events| && Keeps(cfg, events[i], k) && item == KeptItem(cfg, events[i])
    && (forall j :: i < j < |events| ==> Spares(cfg, events[j], k))
  }

  /** The event leaves entry k alone. */
  predicate Spares(cfg: Config, e: Event, k: CacheKey) {
    !Keeps(cfg, e, k) && (Volatile(k) ==> e != Reorganized(k.chain))
  }

  lemma BlockLeaves(cfg: Config, store: Store, chain: nat, number: nat, hash: string, block: Json, now: nat, k: CacheKey)
    requires CollisionFree(cfg.digest) && Indexed(cfg, store) && k.Reply?
    ensures
      var s, n := StoreBlock(cfg, store, chain, number, hash, block, now), Name(cfg, k);
      (n in s <==> n in store) && (n in s ==> s[n] == store[n])
  {
    var a, b := BlockNumber(chain, number), BlockHash(chain, hash);
    BlockIsTwoListings(cfg, store, chain, number, hash, block, now);
    ListingLeaves(cfg, store, a, ValueText(block), BLOCK_TTL, now, k);
    ListingLeaves(cfg, Listed(cfg, store, a, ValueText(block), BLOCK_TTL, now), b, ValueText(block), BLOCK_HASH_TTL, now, k);
  }

  lemma AnswerAtReply(cfg: Config, store: Store, chain: nat, req: Request, resp: Response, now: nat, k: CacheKey)
    requires CollisionFree(cfg.digest) && Indexed(cfg, store) && k.Reply?
    ensures
      var e, s, n := Answered(chain, req, resp, now), StoreAnswer(cfg, store, chain, req, resp, now), Name(cfg, k);
      if Keeps(cfg, e, k) then n in s && s[n] == KeptItem(cfg, e)
      else (n in s <==> n in store) && (n in s ==> s[n] == store[n])
  {
    var j := Reply(chain, NormalizeForCache(req));
    assert OnlyVolatile(cfg, store, chain);
    NamesDiffer(cfg, k, HeadSet(chain));
    NamesDiffer(cfg, j, HeadSet(chain));
    if k != j {
      NamesDiffer(cfg, k, j);
    }
  }

  /** What one write leaves at a reply key: the answer that it keeps there, nothing after a
      reorganization of a volatile key, and otherwise what was there. */
  lemma WriteAtReply(cfg: Config, store: Store, e: Event, k: CacheKey)
    requires CollisionFree(cfg.digest) && Indexed(cfg, store) && k.Reply?
    ensures
      var s, n := Write(cfg, store, e), Name(cfg, k);
      if Keeps(cfg, e, k) then n in s && s[n] == KeptItem(cfg, e)
      else if Spares(cfg, e, k) then (n in s <==> n in store) && (n in s ==> s[n] == store[n])
      else n !in s
  {
    match e
    case Answered(chain, req, resp, now) => AnswerAtReply(cfg, store, chain, req, resp, now, k);
    case BlockSeen(chain, number, hash, block, now) => BlockLeaves(cfg, store, chain, number, hash, block, now, k);
    case LogsSeen(chain, number, logs, now) =>
      ListingLeaves(cfg, store, BlockLogs(chain, number), ValueText(logs), LOGS_TTL, now, k);
    case Reorganized(chain) => InvalidationIsExact(cfg, store, chain, k);
  }

  /** The same for the last event of a run. */
  lemma LastWriteAtReply(cfg: Config, events: seq<Event>, k: CacheKey)
    requires CollisionFree(cfg.digest) && k.Reply? && events != []
    ensures
      var before, after, last := After(cfg, events[..|events| - 1]), After(cfg, events), events[|events| - 1];
      var n := Name(cfg, k);
      if Keeps(cfg, last, k) then n in after && after[n] == KeptItem(cfg, last)
      else if Spares(cfg, last, k) then (n in after <==> n in before) && (n in after ==> after[n] == before[n])
      else n !in after
  {
    HeadSetIsComplete(cfg, events[..|events| - 1]);
    WriteAtReply(cfg, After(cfg, events[..|events| - 1]), events[|events| - 1], k);
  }

  lemma StoredLonger(cfg: Config, events: seq<Event>, k: CacheKey, item: Item, i: nat)
    requires i < |events| - 1
    ensures StoredAt(cfg, events, k, item, i)
       <==> StoredAt(cfg, events[..|events| - 1], k, item, i) && Spares(cfg, events[|events| - 1], k)
  {
    var before := events[..|events| - 1];
    assert forall j :: 0 <= j < |before| ==> before[j] == events[j];
    if StoredAt(cfg, events, k, item, i) {
      assert Spares(cfg, events[|events| - 1], k);
    }
  }

  /** After every run, every reply in the cache was stored by an event of the run, and nothing had to
      replace or remove it since. */
  lemma {:induction false} RepliesAreStored(cfg: Config, events: seq<Event>, k: CacheKey) returns (i: nat)
    requires CollisionFree(cfg.digest) && k.Reply? && Name(cfg, k) in After(cfg, events)
    ensures StoredAt(cfg, events, k, After(cfg, events)[Name(cfg, k)], i)
  {
    assert events != [];
    var n, item := |events| - 1, After(cfg, events)[Name(cfg, k)];
    LastWriteAtReply(cfg, events, k);
    if Keeps(cfg, events[n], k) {
      i := n;
    } else {
      i := RepliesAreStored(cfg, events[..n], k);
      StoredLonger(cfg, events, k, item, i);
    }
  }

  /** And after every run, every answer that is kept is in the cache until it is replaced or has to be
      removed. */
  lemma {:induction false} AnswersStay(cfg: Config, events: seq<Event>, k: CacheKey, item: Item, i: nat)
    requires CollisionFree(cfg.digest) && StoredAt(cfg, events, k, item, i)
    ensures Name(cfg, k) in After(cfg, events) && After(cfg, events)[Name(cfg, k)] == item
  {
    LastWriteAtReply(cfg, events, k);
    if i < |events| - 1 {
      StoredLonger(cfg, events, k, item, i);
      AnswersStay(cfg, events[..|events| - 1], k, item, i);
    }
  }

  /** After every run, a read at a reply key finds a reply exactly when it is the answer of the last
      event that is kept there, no reorganization had to remove it, and its time is not up. */
  lemma LookupIff(cfg: Config, events: seq<Event>, k: CacheKey, at: nat, payload: Payload)
    requires CollisionFree(cfg.digest) && k.Reply?
    ensures Lookup(After(cfg, events), Name(cfg, k), at) == Some(payload)
       <==> exists i, item :: StoredAt(cfg, events, k, item, i) && item.payload == payload && Live(item, at)
  {
    if Lookup(After(cfg, events), Name(cfg, k), at) == Some(payload) {
      var i := RepliesAreStored(cfg, events, k);
    }
    if i, item :| StoredAt(cfg, events, k, item, i) && item.payload == payload && Live(item, at) {
      AnswersStay(cfg, events, k, item, i);
    }
  }

  lemma AnswerIsStored(cfg: Config, before: seq<Event>, answer: Event, more: seq<Event>, k: CacheKey)
    requires Keeps(cfg, answer, k) && forall j :: 0 <= j < |more| ==> Spares(cfg, more[j], k)
    ensures StoredAt(cfg, before + [answer] + more, k, KeptItem(cfg, answer), |before|)
  {
    var events := before + [answer] + more;
    assert events[|before|] == answer;
    forall j | |before| < j < |events| ensures Spares(cfg, events[j], k) {
      assert events[j] == more[j - |before| - 1];
    }
  }

  /** An answer that may be kept is served from then on: at every time before its own is up, or at every
      time if it has none, as long as nothing replaces it and no reorganization has to remove it. */
  lemma AnswerIsServed(cfg: Config, before: seq<Event>, answer: Event, more: seq<Event>, ttl: nat, at: nat)
    requires CollisionFree(cfg.digest) && answer.Answered?
    requires answer.resp.error == None && !IsUncacheable(answer.req.rpcMethod)
    requires ResolveTtl(cfg.policies, answer.req.rpcMethod, BlockRefIsUnfinalized(answer.req)) == Some(ttl)
    requires forall j :: 0 <= j < |more| ==> Spares(cfg, more[j], Reply(answer.chain, NormalizeForCache(answer.req)))
    ensures Lookup(After(cfg, before + [answer] + more), KeyOf(cfg.digest, answer.chain, answer.req), at)
         == if ttl == 0 || at < answer.now + ttl then Some(ReplyText(answer.resp)) else None
  {
    var k := Reply(answer.chain, NormalizeForCache(answer.req));
    AnswerIsStored(cfg, before, answer, more, k);
    AnswersStay(cfg, before + [answer] + more, k, KeptItem(cfg, answer), |before|);
    ItemIsFound(After(cfg, before + [answer] + more), Name(cfg, k), ReplyText(answer.resp), ttl, answer.now, at);
  }

  lemma ItemIsFound(store: Store, name: string, payload: Payload, ttl: nat, now: nat, at: nat)
    requires name in store && store[name] == Text(payload, Expiry(ttl, now))
    ensures Lookup(store, name, at) == if ttl == 0 || at < now + ttl then Some(payload) else None
  {
  }
}
