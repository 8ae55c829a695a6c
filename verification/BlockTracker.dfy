/** The block tracker (src/upstream/tracker.rs): polls the head, caches blocks and logs, and
    tells new blocks, lagging upstreams and reorganizations apart. */
module BlockTracker {
  import opened Wrappers
  import opened Json
  import opened CacheKeys
  import opened CacheLayer
  import opened CacheRuns
  import opened BlockEvents
  import opened RedisStore

  /** One poll: the block that was returned, if any; whether an upstream WebSocket is forwarding
      heads; what the query for the block's logs returned, if anything; and when. */
  datatype Poll = Poll(block: Option<Json>, wsConnected: bool, logs: Option<Json>, now: nat)

  /** What a poll does to the outside, in order. */
  datatype Effect = Emit(event: BlockEvent) | Cached(write: CacheRuns.Event)

  datatype Tracker = Tracker(lastNumber: nat, lastHash: string, latest: nat)

  const FRESH: Tracker := Tracker(0, "", 0)

  const NON_HEADER_FIELDS: set<string> := {"transactions", "uncles", "size", "totalDifficulty"}

  function WithoutFields(fields: seq<(string, Json)>, names: set<string>): seq<(string, Json)> {
    if fields == [] then []
    else if fields[0].0 in names then WithoutFields(fields[1..], names)
    else [fields[0]] + WithoutFields(fields[1..], names)
  }

  function StripNonHeaderFields(block: Json): Json {
    if block.Obj? then Obj(WithoutFields(block.fields, NON_HEADER_FIELDS)) else block
  }

  /** A poll that returned a block with a height and a hash. */
  predicate Valid(p: Poll) {
    p.block.Some? && !p.block.value.Null? && IsUsable(p.block.value)
  }

  function Height(p: Poll): nat
    requires Valid(p)
  {
    HeightOf(p.block.value)
  }

  function Hash(p: Poll): string
    requires Valid(p)
  {
    HashOf(p.block.value)
  }

  predicate IsReorg(t: Tracker, p: Poll) {
    Valid(p) && Height(p) == t.lastNumber && Hash(p) != t.lastHash && t.lastNumber > 0
  }

  predicate IsNew(t: Tracker, p: Poll) {
    Valid(p) && Height(p) > t.lastNumber
  }

  function Next(t: Tracker, p: Poll): Tracker {
    if IsReorg(t, p) then t.(lastHash := Hash(p))
    else if IsNew(t, p) then Tracker(Height(p), Hash(p), Height(p))
    else t
  }

  /** The announcement of a new block, unless the WebSocket makes it. */
  function HeadPart(chain: nat, p: Poll): seq<Effect>
    requires Valid(p)
  {
    if p.wsConnected then []
    else [Emit(NewBlock(chain, Height(p), Hash(p), StripNonHeaderFields(p.block.value)))]
  }

  function LogsPart(chain: nat, p: Poll): seq<Effect>
    requires Valid(p)
  {
    match p.logs
    case None => []
    case Some(logs) => [Cached(LogsSeen(chain, Height(p), logs, p.now)), Emit(NewLogs(chain, Height(p), logs))]
  }

  function Effects(chain: nat, t: Tracker, p: Poll): seq<Effect> {
    if IsReorg(t, p) then
      [Emit(Reorg(chain, t.lastNumber, Height(p))), Cached(Reorganized(chain))]
    else if IsNew(t, p) then
      [Cached(BlockSeen(chain, Height(p), Hash(p), p.block.value, p.now))] + HeadPart(chain, p) + LogsPart(chain, p)
    else []
  }

  class Poller {
    const chainId: nat
    const cache: Cache
    var lastBlockNumber: nat
    var lastBlockHash: string
    var latestBlockNumber: nat
    var events: seq<BlockEvent>
    ghost var effects: seq<Effect>

    ghost function View(): Tracker
      reads this
    {
      Tracker(lastBlockNumber, lastBlockHash, latestBlockNumber)
    }

    constructor (chainId: nat, cache: Cache)
      ensures this.chainId == chainId && this.cache == cache
      ensures View() == FRESH && events == [] && effects == []
    {
      this.chainId, this.cache := chainId, cache;
      lastBlockNumber, lastBlockHash, latestBlockNumber, events, effects := 0, "", 0, [], [];
    }

    /** What one poll of the head leaves behind. */
    twostate predicate Polled(p: Poll)
      reads this, cache.redis
    {
      && View() == Next(old(View()), p)
      && effects == old(effects) + Effects(chainId, old(View()), p)
      && events == old(events) + Emitted(Effects(chainId, old(View()), p))
      && cache.redis.data == Written(cache.config, old(cache.redis.data), Effects(chainId, old(View()), p))
    }

    /** One poll of the head. */
    method FetchLatestBlock(p: Poll)
      modifies this, cache.redis
      ensures Polled(p)
    {
      if p.block == None || p.block.value.Null? {
        return;
      }
      var number, hash := HeightOf(p.block.value), HashOf(p.block.value);
      if number == 0 || hash == "" {
        return;
      }
      if number == lastBlockNumber && hash == lastBlockHash {
        return;
      }
      if number < lastBlockNumber && lastBlockNumber > 0 {
        return;
      }
      if number == lastBlockNumber && hash != lastBlockHash && lastBlockNumber > 0 {
        Reorganize(p, number, hash);
        return;
      }
      Advance(p, p.block.value, number, hash);
      AdvancedIsPolled(p);
    }

    /** Sends an event to the subscribers. */
    method Announce(event: BlockEvent)
      modifies this`events, this`effects
      ensures events == old(events) + [event] && effects == old(effects) + [Emit(event)]
    {
      events := events + [event];
      effects := effects + [Emit(event)];
    }

    method Invalidate()
      modifies cache.redis, this`effects
      ensures cache.redis.data == InvalidateHead(cache.config, old(cache.redis.data), chainId)
      ensures effects == old(effects) + [Cached(Reorganized(chainId))]
    {
      cache.InvalidateHeadCache(chainId);
      effects := effects + [Cached(Reorganized(chainId))];
    }

    method StoreNewBlock(number: nat, hash: string, block: Json, now: nat)
      modifies cache.redis, this`effects
      ensures cache.redis.data == StoreBlock(cache.config, old(cache.redis.data), chainId, number, hash, block, now)
      ensures effects == old(effects) + [Cached(BlockSeen(chainId, number, hash, block, now))]
    {
      cache.CacheBlock(chainId, number, hash, block, now);
      effects := effects + [Cached(BlockSeen(chainId, number, hash, block, now))];
    }

    method AnnounceHead(p: Poll, number: nat, hash: string)
      requires Valid(p) && number == Height(p) && hash == Hash(p)
      modifies this`events, this`effects
      ensures effects == old(effects) + HeadPart(chainId, p)
      ensures events == old(events) + Emitted(HeadPart(chainId, p))
    {
      if !p.wsConnected {
        Announce(NewBlock(chainId, number, hash, StripNonHeaderFields(p.block.value)));
      }
      EmittedOfHead(chainId, p);
    }

    method FetchBlockLogs(p: Poll, number: nat)
      requires Valid(p) && number == Height(p)
      modifies cache.redis, this`effects, this`events
      ensures effects == old(effects) + LogsPart(chainId, p)
      ensures events == old(events) + Emitted(LogsPart(chainId, p))
      ensures cache.redis.data == Written(cache.config, old(cache.redis.data), LogsPart(chainId, p))
    {
      if p.logs.Some? {
        cache.CacheLogs(chainId, number, p.logs.value, p.now);
        effects := effects + [Cached(LogsSeen(chainId, number, p.logs.value, p.now))];
        Announce(NewLogs(chainId, number, p.logs.value));
        TwoEffects(cache.config, old(cache.redis.data), LogsPart(chainId, p)[0], LogsPart(chainId, p)[1]);
      }
    }

    method Reorganize(p: Poll, number: nat, hash: string)
      requires IsReorg(View(), p) && number == Height(p) && hash == Hash(p)
      modifies this, cache.redis
      ensures Polled(p)
    {
      Announce(Reorg(chainId, lastBlockNumber, number));
      Invalidate();
      lastBlockHash := hash;
      EffectsOfReorg(chainId, old(View()), p, cache.config, old(cache.redis.data));
    }

    /** What a poll that finds a new block leaves behind, part by part. */
    twostate predicate Advanced(p: Poll)
      requires Valid(p)
      reads this, cache.redis
    {
      && View() == Tracker(Height(p), Hash(p), Height(p))
      && effects == old(effects) + ([Cached(BlockSeen(chainId, Height(p), Hash(p), p.block.value, p.now))]
                                    + HeadPart(chainId, p) + LogsPart(chainId, p))
      && events == old(events) + (Emitted(HeadPart(chainId, p)) + Emitted(LogsPart(chainId, p)))
      && cache.redis.data ==
           Written(cache.config,
                   StoreBlock(cache.config, old(cache.redis.data), chainId, Height(p), Hash(p), p.block.value, p.now),
                   LogsPart(chainId, p))
    }

    twostate lemma AdvancedIsPolled(p: Poll)
      requires IsNew(old(View()), p) && Advanced(p)
      ensures Polled(p)
    {
      EffectsOfNew(chainId, old(View()), p, cache.config, old(cache.redis.data));
    }

    method Advance(p: Poll, block: Json, number: nat, hash: string)
      requires Valid(p) && block == p.block.value && number == Height(p) && hash == Hash(p)
      modifies this, cache.redis
      ensures Advanced(p)
    {
      StoreNewBlock(number, hash, block, p.now);
      AnnounceHead(p, number, hash);
      FetchBlockLogs(p, number);
      lastBlockNumber := number;
      lastBlockHash := hash;
      latestBlockNumber := number;
      Regroup(old(effects), [Cached(BlockSeen(chainId, number, hash, block, p.now))],
              HeadPart(chainId, p), LogsPart(chainId, p));
      Regroup(old(events), [], Emitted(HeadPart(chainId, p)), Emitted(LogsPart(chainId, p)));
    }

    /** The polling loop. */
    method Run(polls: seq<Poll>)
      requires View() == FRESH && effects == [] && events == []
      modifies this, cache.redis
      ensures View() == TrackerAfter(polls)
      ensures effects == AllEffects(chainId, polls)
      ensures events == Emitted(AllEffects(chainId, polls))
      ensures cache.redis.data == Written(cache.config, old(cache.redis.data), AllEffects(chainId, polls))
    {
      for i := 0 to |polls|
        invariant View() == TrackerAfter(polls[..i])
        invariant effects == AllEffects(chainId, polls[..i])
        invariant events == Emitted(effects)
        invariant cache.redis.data == Written(cache.config, old(cache.redis.data), effects)
      {
        assert polls[..i + 1][..i] == polls[..i];
        var more := Effects(chainId, TrackerAfter(polls[..i]), polls[i]);
        EmittedOfAppend(effects, more);
        WrittenOfAppend(cache.config, old(cache.redis.data), effects, more);
        FetchLatestBlock(polls[i]);
      }
      assert polls[..|polls|] == polls;
    }
  }

  /** The events among effects, in order. */
  function Emitted(es: seq<Effect>): seq<BlockEvent> {
    if es == [] then []
    else if es[0].Emit? then [es[0].event] + Emitted(es[1..]) else Emitted(es[1..])
  }

  /** The cache after the writes among effects. */
  function Written(cfg: Config, store: Store, es: seq<Effect>): Store
    decreases |es|
  {
    if es == [] then store
    else Written(cfg, if es[0].Cached? then Write(cfg, store, es[0].write) else store, es[1..])
  }

  lemma Regroup<T>(a: seq<T>, b: seq<T>, c: seq<T>, d: seq<T>)
    ensures a + b + c + d == a + (b + c + d)
    ensures b == [] ==> a + c + d == a + (c + d)
  {
  }

  lemma OneEffect(cfg: Config, store: Store, e: Effect)
    ensures Emitted([e]) == if e.Emit? then [e.event] else []
    ensures Written(cfg, store, [e]) == if e.Cached? then Write(cfg, store, e.write) else store
  {
    assert [e][1..] == [];
  }

  lemma TwoEffects(cfg: Config, store: Store, e: Effect, f: Effect)
    ensures Emitted([e, f]) == (if e.Emit? then [e.event] else []) + (if f.Emit? then [f.event] else [])
    ensures
      var s := if e.Cached? then Write(cfg, store, e.write) else store;
      Written(cfg, store, [e, f]) == if f.Cached? then Write(cfg, s, f.write) else s
  {
    assert [e, f] == [e] + [f];
    EmittedOfAppend([e], [f]);
    WrittenOfAppend(cfg, store, [e], [f]);
    OneEffect(cfg, store, e);
    OneEffect(cfg, Written(cfg, store, [e]), f);
  }

  lemma EmittedOfHead(chain: nat, p: Poll)
    requires Valid(p)
    ensures Emitted(HeadPart(chain, p)) ==
      if p.wsConnected then [] else [NewBlock(chain, Height(p), Hash(p), StripNonHeaderFields(p.block.value))]
  {
    if !p.wsConnected {
      OneEffect(Config([], r => ""), map[], HeadPart(chain, p)[0]);
    }
  }

  lemma WrittenOfHead(chain: nat, p: Poll, cfg: Config, store: Store)
    requires Valid(p)
    ensures Written(cfg, store, HeadPart(chain, p)) == store
  {
    if !p.wsConnected {
      OneEffect(cfg, store, HeadPart(chain, p)[0]);
    }
  }

  lemma EmittedOfLogs(chain: nat, p: Poll)
    requires Valid(p)
    ensures Emitted(LogsPart(chain, p)) == if p.logs.Some? then [NewLogs(chain, Height(p), p.logs.value)] else []
  {
    if p.logs.Some? {
      TwoEffects(Config([], r => ""), map[], LogsPart(chain, p)[0], LogsPart(chain, p)[1]);
    }
  }

  /** What a poll that finds a new block emits and writes, part by part. */
  lemma EffectsOfNew(chain: nat, t: Tracker, p: Poll, cfg: Config, store: Store)
    requires IsNew(t, p)
    ensures
      var es, head, logs := Effects(chain, t, p), HeadPart(chain, p), LogsPart(chain, p);
      && es == [Cached(BlockSeen(chain, Height(p), Hash(p), p.block.value, p.now))] + head + logs
      && Emitted(es) == Emitted(head) + Emitted(logs)
      && Written(cfg, store, es)
           == Written(cfg, StoreBlock(cfg, store, chain, Height(p), Hash(p), p.block.value, p.now), logs)
  {
    var seen := Cached(BlockSeen(chain, Height(p), Hash(p), p.block.value, p.now));
    var head, logs := HeadPart(chain, p), LogsPart(chain, p);
    OneEffect(cfg, store, seen);
    EmittedOfAppend([seen] + head, logs);
    EmittedOfAppend([seen], head);
    WrittenOfAppend(cfg, store, [seen] + head, logs);
    WrittenOfAppend(cfg, store, [seen], head);
    WrittenOfHead(chain, p, cfg, Written(cfg, store, [seen]));
  }

  lemma EffectsOfReorg(chain: nat, t: Tracker, p: Poll, cfg: Config, store: Store)
    requires IsReorg(t, p)
    ensures Emitted(Effects(chain, t, p)) == [Reorg(chain, t.lastNumber, Height(p))]
    ensures Written(cfg, store, Effects(chain, t, p)) == InvalidateHead(cfg, store, chain)
  {
    TwoEffects(cfg, store, Effects(chain, t, p)[0], Effects(chain, t, p)[1]);
  }

  lemma {:induction false} EmittedOfAppend(a: seq<Effect>, b: seq<Effect>)
    ensures Emitted(a + b) == Emitted(a) + Emitted(b)
  {
    if a == [] {
      assert a + b == b;
    } else {
      EmittedOfAppend(a[1..], b);
      assert (a + b)[1..] == a[1..] + b;
    }
  }

  lemma {:induction false} WrittenOfAppend(cfg: Config, store: Store, a: seq<Effect>, b: seq<Effect>)
    ensures Written(cfg, store, a + b) == Written(cfg, Written(cfg, store, a), b)
    decreases |a|
  {
    if a == [] {
      assert a + b == b;
    } else {
      WrittenOfAppend(cfg, if a[0].Cached? then Write(cfg, store, a[0].write) else store, a[1..], b);
      assert (a + b)[1..] == a[1..] + b;
    }
  }

  function TrackerAfter(polls: seq<Poll>): Tracker {
    if polls == [] then FRESH else Next(TrackerAfter(polls[..|polls| - 1]), polls[|polls| - 1])
  }

  function AllEffects(chain: nat, polls: seq<Poll>): seq<Effect> {
    if polls == [] then []
    else
      var before, p := polls[..|polls| - 1], polls[|polls| - 1];
      AllEffects(chain, before) + Effects(chain, TrackerAfter(before), p)
  }

  // ---------- what the stream of events is ----------

  /** The heights of the valid polls, in order. */
  function ValidHeights(polls: seq<Poll>): seq<nat> {
    if polls == [] then []
    else
      var before, p := ValidHeights(polls[..|polls| - 1]), polls[|polls| - 1];
      if Valid(p) then before + [Height(p)] else before
  }

  lemma ValidHeightsOneMore(polls: seq<Poll>)
    requires polls != []
    ensures
      var before, p := polls[..|polls| - 1], polls[|polls| - 1];
      var m := Max(ValidHeights(before));
      Max(ValidHeights(polls)) == if Valid(p) && Height(p) > m then Height(p) else m
  {
    var before, p := polls[..|polls| - 1], polls[|polls| - 1];
    if Valid(p) {
      assert ValidHeights(polls)[..|ValidHeights(polls)| - 1] == ValidHeights(before);
    }
  }

  /** The heights of the new-block events, in order. */
  function NewHeights(events: seq<BlockEvent>): seq<nat> {
    if events == [] then []
    else if events[0].NewBlock? then [events[0].number] + NewHeights(events[1..]) else NewHeights(events[1..])
  }

  lemma {:induction false} NewHeightsOfAppend(a: seq<BlockEvent>, b: seq<BlockEvent>)
    ensures NewHeights(a + b) == NewHeights(a) + NewHeights(b)
  {
    if a == [] {
      assert a + b == b;
    } else {
      NewHeightsOfAppend(a[1..], b);
      assert (a + b)[1..] == a[1..] + b;
    }
  }

  /** The height kept, and the shared latest number, are the greatest valid height polled. */
  lemma {:induction false} LatestIsMaximum(polls: seq<Poll>)
    ensures TrackerAfter(polls).lastNumber == Max(ValidHeights(polls))
    ensures TrackerAfter(polls).latest == Max(ValidHeights(polls))
  {
    if polls != [] {
      var before, p := polls[..|polls| - 1], polls[|polls| - 1];
      LatestIsMaximum(before);
      ValidHeightsOneMore(polls);
    }
  }

  /** What one poll announces as a new block. */
  lemma NewHeightsOfPoll(chain: nat, t: Tracker, p: Poll)
    ensures NewHeights(Emitted(Effects(chain, t, p)))
         == if IsNew(t, p) && !p.wsConnected then [Height(p)] else []
  {
    var cfg := Config([], r => "");
    if IsNew(t, p) {
      EffectsOfNew(chain, t, p, cfg, map[]);
      EmittedOfHead(chain, p);
      EmittedOfLogs(chain, p);
      NewHeightsOfAppend(Emitted(HeadPart(chain, p)), Emitted(LogsPart(chain, p)));
      assert NewHeights(Emitted(LogsPart(chain, p))) == [];
      assert NewHeights(Emitted(HeadPart(chain, p))) == if p.wsConnected then [] else [Height(p)];
    } else if IsReorg(t, p) {
      EffectsOfReorg(chain, t, p, cfg, map[]);
    }
  }

  /** A valid poll above every valid poll before it. */
  predicate IsRecord(before: seq<Poll>, p: Poll) {
    Valid(p) && Height(p) > Max(ValidHeights(before))
  }

  /** The heights of the records that were polled while no WebSocket forwarded heads. */
  function RecordsWhileDown(polls: seq<Poll>): seq<nat> {
    if polls == [] then []
    else
      var before, p := polls[..|polls| - 1], polls[|polls| - 1];
      RecordsWhileDown(before) + if IsRecord(before, p) && !p.wsConnected then [Height(p)] else []
  }

  /** Poll i is such a record, of height n. */
  predicate IsAnnouncedAt(polls: seq<Poll>, i: nat, n: nat) {
    i < |polls| && IsRecord(polls[..i], polls[i]) && !polls[i].wsConnected && Height(polls[i]) == n
  }

  lemma AnnouncedLonger(polls: seq<Poll>, i: nat, n: nat)
    requires polls != [] && i < |polls| - 1
    ensures IsAnnouncedAt(polls[..|polls| - 1], i, n) <==> IsAnnouncedAt(polls, i, n)
  {
    assert polls[..|polls| - 1][..i] == polls[..i];
  }

  lemma {:induction false} AnnouncedIsRecord(polls: seq<Poll>, n: nat) returns (i: nat)
    requires n in RecordsWhileDown(polls)
    ensures IsAnnouncedAt(polls, i, n)
  {
    var k := |polls| - 1;
    if IsAnnouncedAt(polls, k, n) {
      i := k;
    } else {
      i := AnnouncedIsRecord(polls[..k], n);
      AnnouncedLonger(polls, i, n);
    }
  }

  lemma {:induction false} RecordIsAnnounced(polls: seq<Poll>, i: nat, n: nat)
    requires IsAnnouncedAt(polls, i, n)
    ensures n in RecordsWhileDown(polls)
  {
    if i < |polls| - 1 {
      AnnouncedLonger(polls, i, n);
      RecordIsAnnounced(polls[..|polls| - 1], i, n);
    }
  }

  lemma RecordsWhileDownAre(polls: seq<Poll>, n: nat)
    ensures n in RecordsWhileDown(polls) <==> exists i :: IsAnnouncedAt(polls, i, n)
  {
    if n in RecordsWhileDown(polls) {
      var i := AnnouncedIsRecord(polls, n);
    }
    if i: nat :| IsAnnouncedAt(polls, i, n) {
      RecordIsAnnounced(polls, i, n);
    }
  }

  lemma {:induction false} AllDownAllRecords(polls: seq<Poll>)
    requires forall i :: 0 <= i < |polls| ==> !polls[i].wsConnected
    ensures RecordsWhileDown(polls) == Records(ValidHeights(polls))
  {
    if polls != [] {
      var before, p := polls[..|polls| - 1], polls[|polls| - 1];
      AllDownAllRecords(before);
      if Valid(p) {
        assert ValidHeights(polls)[..|ValidHeights(polls)| - 1] == ValidHeights(before);
      }
    }
  }

  /** The new blocks announced are exactly the records among the valid polls at which no WebSocket
      forwarded heads; if none ever did, all the strict prefix maxima. */
  lemma {:induction false} PollingAnnouncesRecords(chain: nat, polls: seq<Poll>)
    ensures NewHeights(Emitted(AllEffects(chain, polls))) == RecordsWhileDown(polls)
    ensures (forall i :: 0 <= i < |polls| ==> !polls[i].wsConnected) ==>
      NewHeights(Emitted(AllEffects(chain, polls))) == Records(ValidHeights(polls))
  {
    if polls != [] {
      var before, p := polls[..|polls| - 1], polls[|polls| - 1];
      var t := TrackerAfter(before);
      PollingAnnouncesRecords(chain, before);
      LatestIsMaximum(before);
      EmittedOfAppend(AllEffects(chain, before), Effects(chain, t, p));
      NewHeightsOfAppend(Emitted(AllEffects(chain, before)), Emitted(Effects(chain, t, p)));
      NewHeightsOfPoll(chain, t, p);
    }
    if forall i :: 0 <= i < |polls| ==> !polls[i].wsConnected {
      AllDownAllRecords(polls);
    }
  }

  /** Poll i is valid and shows the given block, and every later valid poll is lower. */
  ghost predicate LastAt(polls: seq<Poll>, i: nat, height: nat, hash: string) {
    && i < |polls| && Valid(polls[i]) && Height(polls[i]) == height && Hash(polls[i]) == hash
    && forall j :: i < j < |polls| && Valid(polls[j]) ==> Height(polls[j]) < height
  }

  lemma LastAtOneMore(polls: seq<Poll>, p: Poll, i: nat, height: nat, hash: string)
    requires LastAt(polls, i, height, hash) && (Valid(p) ==> Height(p) < height)
    ensures LastAt(polls + [p], i, height, hash)
  {
  }

  /** The hash kept is that of the last valid poll at the greatest height. */
  lemma {:induction false} HashIsLastAtHead(polls: seq<Poll>) returns (i: nat)
    requires Max(ValidHeights(polls)) > 0
    ensures LastAt(polls, i, Max(ValidHeights(polls)), TrackerAfter(polls).lastHash)
  {
    assert polls != [];
    var n := |polls| - 1;
    var before, p := polls[..n], polls[n];
    var m, t := Max(ValidHeights(before)), TrackerAfter(before);
    LatestIsMaximum(before);
    ValidHeightsOneMore(polls);
    assert before + [p] == polls;
    if Valid(p) && Height(p) >= m {
      i := n;
      assert TrackerAfter(polls) == Next(t, p);
    } else {
      i := HashIsLastAtHead(before);
      LastAtOneMore(before, p, i, m, t.lastHash);
    }
  }

  /** A poll announces a reorganization exactly when it shows the greatest height so far with a
      hash other than the last one seen there.  It then announces just one, immediately followed
      by the invalidation of the head cache, and does nothing else; a second poll of the same
      block does nothing. */
  lemma ReorgIffHashChanged(chain: nat, polls: seq<Poll>, p: Poll)
    ensures
      var t := TrackerAfter(polls);
      var es := Effects(chain, t, p);
      && (Valid(p) && Height(p) == Max(ValidHeights(polls)) && Hash(p) != t.lastHash
          <==> exists k :: 0 <= k < |es| && es[k].Emit? && es[k].event.Reorg?)
      && ((exists k :: 0 <= k < |es| && es[k].Emit? && es[k].event.Reorg?) ==>
            && es == [Emit(Reorg(chain, Height(p), Height(p))), Cached(Reorganized(chain))]
            && Effects(chain, Next(t, p), p) == [])
  {
    LatestIsMaximum(polls);
    var t := TrackerAfter(polls);
    if IsReorg(t, p) {
      assert Effects(chain, t, p)[0].event.Reorg?;
    }
  }

  /** The poll that detects a reorganization leaves no volatile entry of its chain in the cache,
      and every other entry as it was, whatever was written before. */
  lemma ReorgPollWipesHead(cfg: Config, events: seq<CacheRuns.Event>, chain: nat, t: Tracker, p: Poll, k: CacheKey)
    requires CollisionFree(cfg.digest) && IsReorg(t, p) && !k.HeadSet?
    ensures
      var before := After(cfg, events);
      var after, n := Written(cfg, before, Effects(chain, t, p)), Name(cfg, k);
      if Volatile(k) && k.chain == chain then n !in after
      else (n in after <==> n in before) && (n in after ==> after[n] == before[n])
  {
    EffectsOfReorg(chain, t, p, cfg, After(cfg, events));
    ReorgWipesExactly(cfg, events, chain, k);
    assert (events + [Reorganized(chain)])[..|events|] == events;
  }

  // ---------- what a new block leaves in the cache ----------

  /** A poll that finds a new block leaves it in the cache, by number for a minute and by hash for an
      hour, and its logs, if they were returned, for a minute, whatever was written before. */
  lemma NewBlockIsCached(cfg: Config, events: seq<CacheRuns.Event>, chain: nat, t: Tracker, p: Poll)
    requires CollisionFree(cfg.digest) && IsNew(t, p)
    ensures
      var store := Written(cfg, After(cfg, events), Effects(chain, t, p));
      && HasUntil(cfg, store, BlockNumber(chain, Height(p)), ValueText(p.block.value), p.now + 60_000)
      && HasUntil(cfg, store, BlockHash(chain, Hash(p)), ValueText(p.block.value), p.now + 3_600_000)
      && (p.logs.Some? ==>
            HasUntil(cfg, store, BlockLogs(chain, Height(p)), ValueText(p.logs.value), p.now + 60_000))
  {
    var before := After(cfg, events);
    HeadSetIsComplete(cfg, events);
    EffectsOfNew(chain, t, p, cfg, before);
    BlockIsFound(cfg, before, chain, Height(p), Hash(p), p.block.value, p.now);
    var s := StoreBlock(cfg, before, chain, Height(p), Hash(p), p.block.value, p.now);
    if p.logs.Some? {
      TwoEffects(cfg, s, LogsPart(chain, p)[0], LogsPart(chain, p)[1]);
      ListingIsFound(cfg, s, BlockLogs(chain, Height(p)), ValueText(p.logs.value), LOGS_TTL, p.now);
      LogsLeaveFound(cfg, s, chain, Height(p), p.logs.value, p.now,
                     BlockNumber(chain, Height(p)), ValueText(p.block.value), p.now + 60_000);
      LogsLeaveFound(cfg, s, chain, Height(p), p.logs.value, p.now,
                     BlockHash(chain, Hash(p)), ValueText(p.block.value), p.now + 3_600_000);
    }
  }

  // ---------- headers ----------

  lemma {:induction false} WithoutFieldsGet(fields: seq<(string, Json)>, names: set<string>, name: string)
    ensures FieldOf(WithoutFields(fields, names), name) == if name in names then None else FieldOf(fields, name)
  {
    if fields != [] {
      WithoutFieldsGet(fields[1..], names, name);
      if fields[0].0 !in names {
        assert ([fields[0]] + WithoutFields(fields[1..], names))[1..] == WithoutFields(fields[1..], names);
      }
    }
  }

  /** A header has every field of the block but the four that headers do not have; so it keeps
      height and hash. */
  lemma HeaderKeepsTheRest(block: Json, name: string)
    ensures StripNonHeaderFields(block).Get(name)
         == if block.Obj? && name in {"transactions", "uncles", "size", "totalDifficulty"} then None else block.Get(name)
    ensures HeightOf(StripNonHeaderFields(block)) == HeightOf(block)
    ensures HashOf(StripNonHeaderFields(block)) == HashOf(block)
  {
    if block.Obj? {
      WithoutFieldsGet(block.fields, NON_HEADER_FIELDS, name);
      WithoutFieldsGet(block.fields, NON_HEADER_FIELDS, "number");
      WithoutFieldsGet(block.fields, NON_HEADER_FIELDS, "hash");
    }
  }

  /** What a poll that finds a new block announces: first the block, unless a WebSocket announces it,
      with a header of everything but the four fields; then its logs, if they were returned. */
  lemma NewBlockIsAnnounced(chain: nat, t: Tracker, p: Poll) returns (header: Json)
    requires IsNew(t, p)
    ensures Emitted(Effects(chain, t, p)) ==
      (if p.wsConnected then [] else [NewBlock(chain, Height(p), Hash(p), header)])
      + (if p.logs.Some? then [NewLogs(chain, Height(p), p.logs.value)] else [])
    ensures HeightOf(header) == Height(p) && HashOf(header) == Hash(p)
    ensures forall name ::
      header.Get(name) == if name in {"transactions", "uncles", "size", "totalDifficulty"} then None
                          else p.block.value.Get(name)
  {
    header := StripNonHeaderFields(p.block.value);
    EffectsOfNew(chain, t, p, Config([], r => ""), map[]);
    EmittedOfHead(chain, p);
    EmittedOfLogs(chain, p);
    HeaderKeepsTheRest(p.block.value, "number");
    forall name
      ensures header.Get(name) == if name in {"transactions", "uncles", "size", "totalDifficulty"} then None
                                  else p.block.value.Get(name)
    {
      HeaderKeepsTheRest(p.block.value, name);
    }
  }
}
