/** Handling one request (src/rpc/handler.rs): blocked methods, answers from memory, block-tag
    resolution, the cache, coalescing and the upstreams. */
module RequestHandler {
  import opened Wrappers
  import opened Json
  import opened Numerals
  import opened RpcTypes
  import opened CacheKeys
  import opened CachePolicy
  import opened RedisStore
  import opened CacheLayer
  import opened CacheRuns

  datatype Chain = Chain(chainId: nat, finalityDepth: nat, blocked: seq<string>)

  /** A call whose execution answers this one too: the id it executed under, and what the upstreams
      answered it.  Module CoalescedCalls ties it to the runs of the coalescer. */
  datatype Leader = Leader(id: Json, upstream: Result<Response, string>)

  /** What the surroundings do while one request is handled: the head that is known, when the
      cache is read and written, what the upstreams answer to the resolved request, and the call
      whose answer is taken over when the request is coalesced. */
  datatype Surroundings = Surroundings(
    latest: Option<nat>,
    readAt: nat,
    storedAt: nat,
    upstream: Result<Response, string>,
    coalesced: Option<Leader>)

  /** Answers that need no upstream: the chain id in two notations, and a known head. */
  function MemoryIntercept(chainId: nat, latest: Option<nat>, name: string, id: Json): Option<Response> {
    match name
    case "eth_chainId" => Some(SuccessResponse(id, Str(Hex(chainId))))
    case "net_version" => Some(SuccessResponse(id, Str(Print(chainId, 10))))
    case "eth_blockNumber" =>
      (match latest
       case Some(number) => Some(SuccessResponse(id, Str(Hex(number))))
       case None => None)
    case _ => None
  }

  function Resolved(chain: Chain, req: Request, latest: Option<nat>): Request {
    match latest
    case Some(number) => ResolveBlockTags(req, number, chain.finalityDepth)
    case None => req
  }

  function UpstreamError(id: Json, message: string): Response {
    ErrorResponse(id, -32603, "upstream error: " + message)
  }

  /** What forward_to_upstream answers under an id. */
  function UpstreamAnswer(id: Json, upstream: Result<Response, string>): Response {
    match upstream
    case Ok(resp) => resp.(id := id)
    case Err(message) => UpstreamError(id, message)
  }

  function Forward(cfg: Config, chain: Chain, store: Store, req: Request, id: Json, env: Surroundings): (Response, Store) {
    (UpstreamAnswer(id, env.upstream),
     match env.upstream
     case Ok(resp) => StoreAnswer(cfg, store, chain.chainId, req, resp, env.storedAt)
     case Err(_) => store)
  }

  function Coalesced(cfg: Config, chain: Chain, store: Store, req: Request, id: Json, env: Surroundings): (Response, Store) {
    match env.coalesced
    case Some(leader) => (UpstreamAnswer(leader.id, leader.upstream), store)
    case None => Forward(cfg, chain, store, req, id, env)
  }

  /** The answer to a request and the cache afterwards. */
  function Process(cfg: Config, chain: Chain, store: Store, req: Request, env: Surroundings): (Response, Store) {
    if IsMethodBlocked(req.rpcMethod, chain.blocked) then
      (ErrorResponse(req.id, -32601, "Method not allowed"), store)
    else if MemoryIntercept(chain.chainId, env.latest, req.rpcMethod, req.id).Some? then
      (MemoryIntercept(chain.chainId, env.latest, req.rpcMethod, req.id).value, store)
    else
      var resolved := Resolved(chain, req, env.latest);
      if IsUncacheable(req.rpcMethod) then Forward(cfg, chain, store, resolved, req.id, env)
      else
        match Lookup(store, KeyOf(cfg.digest, chain.chainId, resolved), env.readAt)
        case Some(ReplyText(resp)) => (resp.(id := req.id), store)
        case Some(ValueText(_)) => Coalesced(cfg, chain, store, resolved, req.id, env)
        case None => Coalesced(cfg, chain, store, resolved, req.id, env)
  }

  method ForwardToUpstream(cache: Cache, chain: Chain, req: Request, id: Json, env: Surroundings)
      returns (resp: Response)
    modifies cache.redis
    ensures (resp, cache.redis.data) == Forward(cache.config, chain, old(cache.redis.data), req, id, env)
  {
    match env.upstream {
      case Ok(answer) =>
        if !IsUncacheable(req.rpcMethod) && answer.error == None {
          cache.Set(chain.chainId, req, answer, BlockRefIsUnfinalized(req), env.storedAt);
        }
        resp := answer.(id := id);
      case Err(message) =>
        resp := UpstreamError(id, message);
    }
  }

  method CoalescedForward(cache: Cache, chain: Chain, req: Request, id: Json, env: Surroundings)
      returns (resp: Response)
    modifies cache.redis
    ensures (resp, cache.redis.data) == Coalesced(cache.config, chain, old(cache.redis.data), req, id, env)
  {
    if env.coalesced.Some? {
      resp := UpstreamAnswer(env.coalesced.value.id, env.coalesced.value.upstream);
    } else {
      resp := ForwardToUpstream(cache, chain, req, id, env);
    }
  }

  method ProcessSingleRequest(cache: Cache, chain: Chain, req: Request, env: Surroundings) returns (resp: Response)
    modifies cache.redis
    ensures (resp, cache.redis.data) == Process(cache.config, chain, old(cache.redis.data), req, env)
  {
    if IsMethodBlocked(req.rpcMethod, chain.blocked) {
      return ErrorResponse(req.id, -32601, "Method not allowed");
    }
    var fromMemory := MemoryIntercept(chain.chainId, env.latest, req.rpcMethod, req.id);
    if fromMemory.Some? {
      return fromMemory.value;
    }
    var resolved := Resolved(chain, req, env.latest);
    if !IsUncacheable(req.rpcMethod) {
      var cached := cache.Get(chain.chainId, resolved, env.readAt);
      if cached.Some? {
        match cached.value {
          case ReplyText(r) =>
            return r.(id := req.id);
          case ValueText(_) =>
            resp := CoalescedForward(cache, chain, resolved, req.id, env);
            return;
        }
      }
      resp := CoalescedForward(cache, chain, resolved, req.id, env);
      return;
    }
    resp := ForwardToUpstream(cache, chain, resolved, req.id, env);
  }

  // ---------- which branch a request takes ----------

  predicate Answerable(chain: Chain, req: Request, env: Surroundings) {
    !IsMethodBlocked(req.rpcMethod, chain.blocked)
    && MemoryIntercept(chain.chainId, env.latest, req.rpcMethod, req.id) == None
  }

  /** The request is served from the cache. */
  predicate IsHit(cfg: Config, chain: Chain, store: Store, req: Request, env: Surroundings) {
    Answerable(chain, req, env) && !IsUncacheable(req.rpcMethod)
    && var found := Lookup(store, KeyOf(cfg.digest, chain.chainId, Resolved(chain, req, env.latest)), env.readAt);
       found.Some? && found.value.ReplyText?
  }

  /** The request misses and takes over the answer of another call. */
  predicate TakesOver(cfg: Config, chain: Chain, store: Store, req: Request, env: Surroundings) {
    Answerable(chain, req, env) && !IsUncacheable(req.rpcMethod)
    && !IsHit(cfg, chain, store, req, env) && env.coalesced.Some?
  }

  lemma ResolvedKeepsMethod(chain: Chain, req: Request, latest: Option<nat>)
    ensures Resolved(chain, req, latest).rpcMethod == req.rpcMethod && Resolved(chain, req, latest).id == req.id
  {
  }

  /** A blocked method is refused, also one that could be answered from memory, and nothing is asked,
      read or stored. */
  lemma BlockedIsRefused(cfg: Config, chain: Chain, store: Store, req: Request, env: Surroundings, rest: string, i: nat)
    requires i < |chain.blocked| && req.rpcMethod == chain.blocked[i] + rest
    ensures Process(cfg, chain, store, req, env)
         == (Response(req.id, None, Some(RpcError(-32601, "Method not allowed"))), store)
  {
    assert chain.blocked[i] <= req.rpcMethod;
  }

  /** The string of a successful response under an id. */
  predicate Replies(answer: Response, id: Json, s: string) {
    answer == Response(id, Some(Str(s)), None)
  }

  /** What is answered from memory reads back as what is known: the chain id in hexadecimal and in
      decimal, and the head.  Nothing else is answered from memory. */
  lemma MemoryIsRight(chainId: nat, latest: Option<nat>, name: string, id: Json) returns (s: string)
    requires chainId < U64_LIMIT && (latest.Some? ==> latest.value < U64_LIMIT)
    ensures
      var answer := MemoryIntercept(chainId, latest, name, id);
      if name == "eth_chainId" then
        answer.Some? && Replies(answer.value, id, s) && ParseQuantity(s) == Some(chainId)
      else if name == "net_version" then
        answer.Some? && Replies(answer.value, id, s) && ValueOf(s, 10) == Some(chainId)
      else if name == "eth_blockNumber" && latest.Some? then
        answer.Some? && Replies(answer.value, id, s) && ParseQuantity(s) == latest
      else answer == None
  {
    HexRoundTrip(chainId);
    PrintThenValue(chainId, 10);
    if latest.Some? {
      HexRoundTrip(latest.value);
    }
    s := if name == "eth_chainId" then Hex(chainId)
         else if name == "net_version" then Print(chainId, 10)
         else if latest.Some? then Hex(latest.value) else "";
  }

  /** Submissions, simulations and estimates, fees, and what only the node itself knows. */
  predicate NeedsTheNode(rpcMethod: string) {
    || rpcMethod == "eth_sendRawTransaction" || rpcMethod == "eth_sendTransaction"
    || rpcMethod == "eth_call" || rpcMethod == "eth_estimateGas" || rpcMethod == "eth_createAccessList"
    || rpcMethod == "eth_gasPrice" || rpcMethod == "eth_maxPriorityFeePerGas" || rpcMethod == "eth_feeHistory"
    || rpcMethod == "net_listening" || rpcMethod == "net_peerCount" || rpcMethod == "web3_clientVersion"
    || rpcMethod == "eth_subscribe" || rpcMethod == "eth_unsubscribe"
  }

  lemma UncacheableIff(rpcMethod: string)
    ensures IsUncacheable(rpcMethod) <==> NeedsTheNode(rpcMethod)
  {
  }

  /** Requests that need the node are always asked of the upstreams, under the caller's id, and their
      answers are never stored. */
  lemma AlwaysForwarded(cfg: Config, chain: Chain, store: Store, req: Request, env: Surroundings)
    requires !IsMethodBlocked(req.rpcMethod, chain.blocked)
    requires NeedsTheNode(req.rpcMethod)
    ensures Process(cfg, chain, store, req, env) ==
      (match env.upstream
       case Ok(resp) => resp.(id := req.id)
       case Err(message) => Response(req.id, None, Some(RpcError(-32603, "upstream error: " + message))), store)
  {
    UncacheableIff(req.rpcMethod);
    assert MemoryIntercept(chain.chainId, env.latest, req.rpcMethod, req.id) == None;
    ResolvedKeepsMethod(chain, req, env.latest);
  }

  /** With a head known, the request that is looked up, stored and coalesced has at its block reference
      the number that is meant: the head for "latest", the head less the chain's finality depth for
      "safe" and "finalized", and the first block for "earliest".  Without one it stays as it is. */
  lemma ResolvedReadsBack(chain: Chain, req: Request, head: nat)
    requires BlockRef(req).Some? && head < U64_LIMIT
    ensures Resolved(chain, req, None) == req
    ensures
      var tag, resolved := BlockRef(req).value, BlockRef(Resolved(chain, req, Some(head)));
      if tag == "latest" then resolved.Some? && ParseQuantity(resolved.value) == Some(head)
      else if tag == "safe" || tag == "finalized" then
        resolved.Some? && ParseQuantity(resolved.value) == Some(if head <= chain.finalityDepth then 0 else head - chain.finalityDepth)
      else if tag == "earliest" then resolved.Some? && ParseQuantity(resolved.value) == Some(0)
      else resolved == Some(tag)
  {
    var tag := BlockRef(req).value;
    if ResolveTag(tag, head, chain.finalityDepth).Some? {
      ResolvedTagParses(tag, head, chain.finalityDepth);
    }
  }

  // ---------- finality of what is stored ----------

  /** A request for a final block is stored as final exactly when no head is known, or the first tag
      among its other parameters is a final one: a known head replaces the tag by a number, and a
      number counts as near the head. */
  lemma FinalTagIsKeptIff(chain: Chain, req: Request, latest: Option<nat>)
    requires BlockRef(req) == Some("finalized") || BlockRef(req) == Some("earliest")
    ensures !BlockRefIsUnfinalized(Resolved(chain, req, latest))
       <==> latest == None || FirstOtherTagIsFinal(req.params.items, BlockTagParamIndex(req.rpcMethod).value)
  {
    if latest.Some? {
      ResolvedFinalizedIff(req, latest.value, chain.finalityDepth);
    }
  }

  /** A balance at the finalized block: by default it is kept for an hour while no head is known,
      and for three seconds from then on. */
  lemma FinalizedBalanceIsKeptBriefly(chain: Chain, account: string, id: Json, head: nat)
    requires TagIsUnfinalized(account) == None
    ensures
      var req := Request("eth_getBalance", Arr([Str(account), Str("finalized")]), id);
      && ResolveTtl([], req.rpcMethod, BlockRefIsUnfinalized(Resolved(chain, req, None))) == Some(3_600_000)
      && ResolveTtl([], req.rpcMethod, BlockRefIsUnfinalized(Resolved(chain, req, Some(head)))) == Some(3_000)
  {
    var req := Request("eth_getBalance", Arr([Str(account), Str("finalized")]), id);
    assert BlockRef(req) == Some("finalized");
    FinalTagIsKeptIff(chain, req, None);
    FinalTagIsKeptIff(chain, req, Some(head));
  }

  // ---------- transparency of the cache ----------

  /** After every run of cache writers, a hit carries the caller's id and is otherwise an
      error-free upstream answer of that run, to a request with the same resolved method and
      parameters on the same chain.  It was stored less than the policy's time ago, unless that is
      zero; and if it is near the head, the chain was not reorganized since.  An entry that does
      not parse as a reply is never met. */
  lemma HitIsTransparent(cfg: Config, chain: Chain, events: seq<CacheRuns.Event>, req: Request, env: Surroundings)
      returns (i: nat)
    requires CollisionFree(cfg.digest) && Answerable(chain, req, env) && !IsUncacheable(req.rpcMethod)
    requires Lookup(After(cfg, events), KeyOf(cfg.digest, chain.chainId, Resolved(chain, req, env.latest)), env.readAt).Some?
    ensures IsHit(cfg, chain, After(cfg, events), req, env)
    ensures
      var r := Resolved(chain, req, env.latest);
      var out := Process(cfg, chain, After(cfg, events), req, env);
      && i < |events| && events[i].Answered?
      && out == (events[i].resp.(id := req.id), After(cfg, events))
      && out.0.error == None
      && events[i].chain == chain.chainId
      && events[i].req.rpcMethod == r.rpcMethod && events[i].req.params == r.params
      && var ttl := ResolveTtl(cfg.policies, req.rpcMethod, BlockRefIsUnfinalized(r));
         && ttl.Some?
         && (ttl.value == 0 || env.readAt < events[i].now + ttl.value)
         && (BlockRefIsUnfinalized(r) ==> forall j :: i < j < |events| ==> events[j] != Reorganized(chain.chainId))
  {
    var r := Resolved(chain, req, env.latest);
    ResolvedKeepsMethod(chain, req, env.latest);
    i := RepliesAreStored(cfg, events, Reply(chain.chainId, NormalizeForCache(r)));
    NormalizingKeepsFinality(r);
    NormalizingKeepsFinality(events[i].req);
  }

  /** A request that is answered by the upstreams is a hit when it comes again, under whatever id and
      from whatever head it resolves to the same parameters, unless it needs the node: until its time is
      up or something in between replaces or has to remove its answer. */
  lemma SecondRequestHits(cfg: Config, chain: Chain, before: seq<CacheRuns.Event>, first: Request, env: Surroundings,
                          more: seq<CacheRuns.Event>, second: Request, later: Surroundings, ttl: nat)
    requires CollisionFree(cfg.digest)
    requires Answerable(chain, first, env) && !NeedsTheNode(first.rpcMethod)
    requires !IsHit(cfg, chain, After(cfg, before), first, env) && env.coalesced == None
    requires env.upstream.Ok? && env.upstream.value.error == None
    requires ResolveTtl(cfg.policies, first.rpcMethod, BlockRefIsUnfinalized(Resolved(chain, first, env.latest))) == Some(ttl)
    requires forall j :: 0 <= j < |more| ==>
      Spares(cfg, more[j], Reply(chain.chainId, NormalizeForCache(Resolved(chain, first, env.latest))))
    requires Answerable(chain, second, later)
    requires NormalizeForCache(Resolved(chain, second, later.latest)) == NormalizeForCache(Resolved(chain, first, env.latest))
    requires ttl == 0 || later.readAt < env.storedAt + ttl
    ensures
      var answer := Answered(chain.chainId, Resolved(chain, first, env.latest), env.upstream.value, env.storedAt);
      var store := After(cfg, before + [answer] + more);
      && Process(cfg, chain, After(cfg, before), first, env) ==
           (env.upstream.value.(id := first.id), After(cfg, before + [answer]))
      && IsHit(cfg, chain, store, second, later)
      && Process(cfg, chain, store, second, later) == (env.upstream.value.(id := second.id), store)
  {
    UncacheableIff(first.rpcMethod);
    var r, r2 := Resolved(chain, first, env.latest), Resolved(chain, second, later.latest);
    var answer := Answered(chain.chainId, r, env.upstream.value, env.storedAt);
    ResolvedKeepsMethod(chain, first, env.latest);
    ResolvedKeepsMethod(chain, second, later.latest);
    assert r2.rpcMethod == NormalizeForCache(r2).rpcMethod == NormalizeForCache(r).rpcMethod == r.rpcMethod;
    assert (before + [answer])[..|before|] == before;
    MissProcess(cfg, chain, After(cfg, before), first, env);
    AnswerIsServed(cfg, before, answer, more, ttl, later.readAt);
  }

  lemma MissProcess(cfg: Config, chain: Chain, store: Store, req: Request, env: Surroundings)
    requires Answerable(chain, req, env) && !IsUncacheable(req.rpcMethod)
    requires !IsHit(cfg, chain, store, req, env) && env.coalesced == None
    ensures Process(cfg, chain, store, req, env)
         == Forward(cfg, chain, store, Resolved(chain, req, env.latest), req.id, env)
  {
  }

  /** The policy names the method of the request, or all methods, and is for data as final as the
      request asks for. */
  predicate Covers(p: Policy, req: Request) {
    && ("*" in p.methods || req.rpcMethod in p.methods)
    && match p.finality
       case Finalized => !BlockRefIsUnfinalized(req)
       case Unfinalized => BlockRefIsUnfinalized(req)
       case Any => true
  }

  lemma CoversIff(p: Policy, req: Request)
    ensures Covers(p, req) <==> Applies(p, req.rpcMethod, BlockRefIsUnfinalized(req))
  {
  }

  /** The first policy that covers a request decides whether its answer is served from the cache, and
      for how long: never, forever, or for its time, where zero means forever. */
  lemma PolicyIsHonoured(cfg: Config, before: seq<CacheRuns.Event>, answer: CacheRuns.Event, i: nat, at: nat)
    requires CollisionFree(cfg.digest) && answer.Answered?
    requires answer.resp.error == None && !IsUncacheable(answer.req.rpcMethod)
    requires i < |cfg.policies| && Covers(cfg.policies[i], answer.req)
    requires forall j :: 0 <= j < i ==> !Covers(cfg.policies[j], answer.req)
    ensures Lookup(After(cfg, before + [answer]), KeyOf(cfg.digest, answer.chain, answer.req), at) ==
      match cfg.policies[i].ttl
      case Never => None
      case Forever => Some(ReplyText(answer.resp))
      case Duration(ms) => if ms == 0 || at < answer.now + ms then Some(ReplyText(answer.resp)) else None
  {
    CoversIff(cfg.policies[i], answer.req);
    forall j | 0 <= j < i ensures !Applies(cfg.policies[j], answer.req.rpcMethod, BlockRefIsUnfinalized(answer.req)) {
      CoversIff(cfg.policies[j], answer.req);
    }
    FirstPolicyDecides(cfg.policies, answer.req.rpcMethod, BlockRefIsUnfinalized(answer.req), i);
    var ttl := ResolveTtl(cfg.policies, answer.req.rpcMethod, BlockRefIsUnfinalized(answer.req));
    if ttl == None {
      NeverStored(cfg, answer.chain, before + [answer], answer.req);
    } else {
      AnswerIsServed(cfg, before, answer, [], ttl.value, at);
      assert before + [answer] + [] == before + [answer];
    }
  }

  /** No run ever stores a reply to a method that must not be cached, or that the policy says
      never to store. */
  lemma NeverStored(cfg: Config, chainId: nat, events: seq<CacheRuns.Event>, req: Request)
    requires CollisionFree(cfg.digest)
    requires IsUncacheable(req.rpcMethod)
          || ResolveTtl(cfg.policies, req.rpcMethod, BlockRefIsUnfinalized(req)) == None
    ensures KeyOf(cfg.digest, chainId, req) !in After(cfg, events)
  {
    if KeyOf(cfg.digest, chainId, req) in After(cfg, events) {
      var i := RepliesAreStored(cfg, events, Reply(chainId, NormalizeForCache(req)));
      NormalizingKeepsFinality(req);
      NormalizingKeepsFinality(events[i].req);
    }
  }

  /** Handling a request writes nothing but an upstream answer, so the results above hold after
      every run of requests, tracker writes and reorganizations. */
  lemma HandlingIsAWriter(cfg: Config, chain: Chain, events: seq<CacheRuns.Event>, req: Request, env: Surroundings)
      returns (more: seq<CacheRuns.Event>)
    ensures Process(cfg, chain, After(cfg, events), req, env).1 == After(cfg, more)
    ensures more == events
         || (env.upstream.Ok? && !IsHit(cfg, chain, After(cfg, events), req, env)
             && more == events
                  + [Answered(chain.chainId, Resolved(chain, req, env.latest), env.upstream.value, env.storedAt)])
  {
    more := events;
    if Process(cfg, chain, After(cfg, events), req, env).1 != After(cfg, events) {
      var e := Answered(chain.chainId, Resolved(chain, req, env.latest), env.upstream.value, env.storedAt);
      more := events + [e];
      assert more[..|more| - 1] == events;
    }
  }

  // ---------- a deterministic upstream: the cache cannot be seen ----------

  /** What the upstreams answer, or how they fail, depending on the normalized request only. */
  type Oracle = Request -> Result<Response, string>

  predicate SameButId(a: Result<Response, string>, b: Result<Response, string>) {
    match (a, b)
    case (Ok(x), Ok(y)) => x.(id := Null) == y.(id := Null)
    case (Err(x), Err(y)) => x == y
    case _ => false
  }

  /** The answer without any cache. */
  function Direct(chain: Chain, oracle: Oracle, req: Request, latest: Option<nat>): Response {
    if IsMethodBlocked(req.rpcMethod, chain.blocked) then ErrorResponse(req.id, -32601, "Method not allowed")
    else if MemoryIntercept(chain.chainId, latest, req.rpcMethod, req.id).Some? then
      MemoryIntercept(chain.chainId, latest, req.rpcMethod, req.id).value
    else UpstreamAnswer(req.id, oracle(NormalizeForCache(Resolved(chain, req, latest))))
  }

  /** Every reply the cache holds for the chain is the upstream's, but for the id. */
  ghost predicate Coherent(cfg: Config, chainId: nat, oracle: Oracle, store: Store) {
    && Indexed(cfg, store)
    && forall norm :: CoherentAt(cfg, chainId, oracle, store, norm)
  }

  ghost predicate CoherentAt(cfg: Config, chainId: nat, oracle: Oracle, store: Store, norm: Request) {
    Name(cfg, Reply(chainId, norm)) in store ==>
      var item := store[Name(cfg, Reply(chainId, norm))];
      item.Text? && item.payload.ReplyText? && SameButId(Ok(item.payload.resp), oracle(norm))
  }

  /** The event, if it is an answer on the chain, is the upstream's. */
  predicate IsOracles(chainId: nat, oracle: Oracle, e: CacheRuns.Event) {
    e.Answered? && e.chain == chainId ==> SameButId(Ok(e.resp), oracle(NormalizeForCache(e.req)))
  }

  lemma WriteKeepsCoherent(cfg: Config, chainId: nat, oracle: Oracle, store: Store, e: CacheRuns.Event)
    requires CollisionFree(cfg.digest) && Coherent(cfg, chainId, oracle, store) && IsOracles(chainId, oracle, e)
    ensures Coherent(cfg, chainId, oracle, Write(cfg, store, e))
  {
    WriteKeepsIndex(cfg, store, e);
    forall norm ensures CoherentAt(cfg, chainId, oracle, Write(cfg, store, e), norm) {
      if Name(cfg, Reply(chainId, norm)) in Write(cfg, store, e) {
        WriteAtReply(cfg, store, e, Reply(chainId, norm));
        assert CoherentAt(cfg, chainId, oracle, store, norm);
      }
    }
  }

  /** From the empty cache, every run of the upstream's answers on the chain, any answers on other
      chains, blocks, logs and reorganizations leaves the cache coherent. */
  lemma {:induction false} RunIsCoherent(cfg: Config, chainId: nat, oracle: Oracle, events: seq<CacheRuns.Event>)
    requires CollisionFree(cfg.digest)
    requires forall i :: 0 <= i < |events| ==> IsOracles(chainId, oracle, events[i])
    ensures Coherent(cfg, chainId, oracle, After(cfg, events))
  {
    if events != [] {
      var n := |events| - 1;
      RunIsCoherent(cfg, chainId, oracle, events[..n]);
      WriteKeepsCoherent(cfg, chainId, oracle, After(cfg, events[..n]), events[n]);
    }
  }

  /** The surroundings answer as the oracle does, also to the call that is taken over. */
  predicate FromOracle(chain: Chain, oracle: Oracle, req: Request, env: Surroundings) {
    var reply := oracle(NormalizeForCache(Resolved(chain, req, env.latest)));
    && SameButId(env.upstream, reply)
    && (env.coalesced.Some? ==> SameButId(env.coalesced.value.upstream, reply))
  }

  lemma SameAnswers(a: Result<Response, string>, b: Result<Response, string>, id: Json, other: Json)
    requires SameButId(a, b)
    ensures UpstreamAnswer(id, a) == UpstreamAnswer(id, b)
    ensures UpstreamAnswer(id, a).(id := other) == UpstreamAnswer(other, b)
  {
    if a.Ok? {
      assert a.value.(id := Null).(id := id) == b.value.(id := Null).(id := id);
      assert a.value.(id := Null).(id := other) == b.value.(id := Null).(id := other);
    }
  }

  /** With upstreams that answer as a function of the normalized request, handling a request over
      any coherent cache gives what handling it without a cache would, but for the id, and keeps the
      cache coherent.  The id is right as well exactly when the answer was not taken over from a call
      with another id. */
  lemma CacheIsInvisible(cfg: Config, chain: Chain, oracle: Oracle, store: Store, req: Request, env: Surroundings)
    requires CollisionFree(cfg.digest) && Coherent(cfg, chain.chainId, oracle, store)
    requires FromOracle(chain, oracle, req, env)
    ensures
      var answer, direct := Process(cfg, chain, store, req, env).0, Direct(chain, oracle, req, env.latest);
      && answer.(id := Null) == direct.(id := Null)
      && (answer == direct <==> (TakesOver(cfg, chain, store, req, env) ==> env.coalesced.value.id == req.id))
    ensures Coherent(cfg, chain.chainId, oracle, Process(cfg, chain, store, req, env).1)
  {
    var r := Resolved(chain, req, env.latest);
    var norm := NormalizeForCache(r);
    ResolvedKeepsMethod(chain, req, env.latest);
    SameAnswers(env.upstream, oracle(norm), req.id, req.id);
    if env.coalesced.Some? {
      SameAnswers(env.coalesced.value.upstream, oracle(norm), env.coalesced.value.id, req.id);
    }
    assert CoherentAt(cfg, chain.chainId, oracle, store, norm);
    if Name(cfg, Reply(chain.chainId, norm)) in store {
      SameAnswers(Ok(store[Name(cfg, Reply(chain.chainId, norm))].payload.resp), oracle(norm), req.id, req.id);
    }
    ProcessKeepsCoherent(cfg, chain, oracle, store, req, env);
  }

  lemma ProcessKeepsCoherent(cfg: Config, chain: Chain, oracle: Oracle, store: Store, req: Request, env: Surroundings)
    requires CollisionFree(cfg.digest) && Coherent(cfg, chain.chainId, oracle, store)
    requires FromOracle(chain, oracle, req, env)
    ensures Coherent(cfg, chain.chainId, oracle, Process(cfg, chain, store, req, env).1)
  {
    if Process(cfg, chain, store, req, env).1 != store {
      var e := Answered(chain.chainId, Resolved(chain, req, env.latest), env.upstream.value, env.storedAt);
      WriteKeepsCoherent(cfg, chain.chainId, oracle, store, e);
    }
  }
}
