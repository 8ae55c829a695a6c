/** Requests that go through the coalescer (src/rpc/handler.rs, coalesced_forward): every call of a
    run belongs to a request, and what it executes is forward_to_upstream for that request.  So a
    call that takes an answer over gets the answer to another request. */
module CoalescedCalls {
  import opened Wrappers
  import opened Json
  import opened RpcTypes
  import opened CacheKeys
  import opened RedisStore
  import opened CacheLayer
  import opened RequestHandler
  import C = Coalescer

  /** Where a call comes from: its chain, and its request with block tags resolved and its own id. */
  datatype Origin = Origin(chain: Chain, req: Request)

  type Replies = nat -> Result<Response, string>

  /** A run of the coalescer whose calls come from these requests, and whose executions answer what
      the upstreams replied, under the id of the request that executes. */
  ghost predicate Handled(d: Digest, origins: seq<Origin>, replies: Replies, acts: seq<C.Action>) {
    && C.IsRun(acts) && |origins| == |C.After(acts).calls|
    && (forall t :: 0 <= t < |origins| ==>
          C.After(acts).calls[t].key == KeyOf(d, origins[t].chain.chainId, origins[t].req))
    && (forall i :: 0 <= i < |acts| && acts[i].Complete? ==> ExecutesItsRequest(origins, replies, acts[i]))
  }

  predicate ExecutesItsRequest(origins: seq<Origin>, replies: Replies, a: C.Action)
    requires a.Complete?
  {
    a.call < |origins| && a.resp == UpstreamAnswer(origins[a.call].req.id, replies(a.call))
  }

  lemma SameOrigin(d: Digest, a: Origin, b: Origin)
    requires CollisionFree(d)
    requires KeyOf(d, a.chain.chainId, a.req) == KeyOf(d, b.chain.chainId, b.req)
    ensures a.chain.chainId == b.chain.chainId
    ensures a.req.rpcMethod == b.req.rpcMethod && a.req.params == b.req.params
  {
    EncodeInjective(d, Reply(a.chain.chainId, NormalizeForCache(a.req)), Reply(b.chain.chainId, NormalizeForCache(b.req)));
  }

  lemma AnswerHasId(id: Json, reply: Result<Response, string>)
    ensures UpstreamAnswer(id, reply).id == id
  {
  }

  /** The answer that a call returns is what the upstreams replied to the call it is from, which was
      for the same method and parameters on the same chain.  It carries the caller's id exactly when
      that call's request has the same id. */
  lemma ReturnedIdIff(d: Digest, origins: seq<Origin>, replies: Replies, acts: seq<C.Action>, t: nat)
    requires CollisionFree(d) && Handled(d, origins, replies, acts)
    requires t < |origins| && C.After(acts).calls[t].phase.Done?
    ensures
      var done := C.After(acts).calls[t].phase;
      && done.from < |origins|
      && done.resp == UpstreamAnswer(origins[done.from].req.id, replies(done.from))
      && origins[done.from].chain.chainId == origins[t].chain.chainId
      && origins[done.from].req.rpcMethod == origins[t].req.rpcMethod
      && origins[done.from].req.params == origins[t].req.params
      && (done.resp.id == origins[t].req.id <==> origins[done.from].req.id == origins[t].req.id)
  {
    var done := C.After(acts).calls[t].phase;
    C.AnswersAreFresh(acts, t);
    var i :| 0 <= i < |acts| && acts[i] == C.Complete(done.from, done.resp);
    assert ExecutesItsRequest(origins, replies, acts[i]);
    SameOrigin(d, origins[done.from], origins[t]);
    AnswerHasId(origins[done.from].req.id, replies(done.from));
  }

  /** So the id is right whenever all requests of the run for the same method and parameters on the
      same chain have the same id. */
  lemma SameIdsReturnRightId(d: Digest, origins: seq<Origin>, replies: Replies, acts: seq<C.Action>, t: nat)
    requires CollisionFree(d) && Handled(d, origins, replies, acts)
    requires t < |origins| && C.After(acts).calls[t].phase.Done?
    requires forall u :: 0 <= u < |origins| && origins[u].chain.chainId == origins[t].chain.chainId
               && origins[u].req.rpcMethod == origins[t].req.rpcMethod && origins[u].req.params == origins[t].req.params
               ==> origins[u].req.id == origins[t].req.id
    ensures C.After(acts).calls[t].phase.resp.id == origins[t].req.id
  {
    ReturnedIdIff(d, origins, replies, acts, t);
  }

  /** What the run means for the handler: a request that misses is answered as its call returns, and
      the answer has its id exactly when the call it is from has. */
  lemma MissIsAnsweredByRun(cfg: Config, chain: Chain, store: Store, req: Request, env: Surroundings,
                            origins: seq<Origin>, replies: Replies, acts: seq<C.Action>, t: nat)
    requires CollisionFree(cfg.digest) && Handled(cfg.digest, origins, replies, acts)
    requires t < |origins| && C.After(acts).calls[t].phase.Done?
    requires origins[t] == Origin(chain, Resolved(chain, req, env.latest))
    requires Answerable(chain, req, env) && !IsUncacheable(req.rpcMethod) && !IsHit(cfg, chain, store, req, env)
    requires env.upstream == replies(t) && env.coalesced == LeaderOf(origins, replies, acts, t)
    ensures
      var done, answer := C.After(acts).calls[t].phase, Process(cfg, chain, store, req, env).0;
      && answer == done.resp
      && done.from < |origins| && (answer.id == req.id <==> origins[done.from].req.id == req.id)
  {
    ReturnedIdIff(cfg.digest, origins, replies, acts, t);
    ResolvedKeepsMethod(chain, req, env.latest);
  }

  /** The call whose answer call t has taken over, if it did. */
  ghost function LeaderOf(origins: seq<Origin>, replies: Replies, acts: seq<C.Action>, t: nat): Option<Leader>
    requires C.IsRun(acts) && t < |C.After(acts).calls| && C.After(acts).calls[t].phase.Done?
  {
    var from := C.After(acts).calls[t].phase.from;
    if from == t || from >= |origins| then None else Some(Leader(origins[from].req.id, replies(from)))
  }

  /** If the upstreams reply as a function of the normalized request, then what a call takes over
      agrees with what it would have got itself. */
  lemma RunAgreesWithOracle(cfg: Config, chain: Chain, oracle: Oracle, req: Request, env: Surroundings,
                            origins: seq<Origin>, replies: Replies, acts: seq<C.Action>, t: nat)
    requires CollisionFree(cfg.digest) && Handled(cfg.digest, origins, replies, acts)
    requires t < |origins| && C.After(acts).calls[t].phase.Done?
    requires origins[t] == Origin(chain, Resolved(chain, req, env.latest))
    requires env.upstream == replies(t) && env.coalesced == LeaderOf(origins, replies, acts, t)
    requires forall u :: 0 <= u < |origins| && origins[u].chain.chainId == chain.chainId ==>
               SameButId(replies(u), oracle(NormalizeForCache(origins[u].req)))
    ensures FromOracle(chain, oracle, req, env)
  {
    ReturnedIdIff(cfg.digest, origins, replies, acts, t);
    var from := C.After(acts).calls[t].phase.from;
    assert NormalizeForCache(origins[from].req) == NormalizeForCache(origins[t].req);
  }

  /** Two clients ask the same under different ids.  The second finds the first one's entry and is
      answered under the first one's id. */
  lemma WrongIdIsReturned(d: Digest, chain: Chain, req: Request, id0: Json, id1: Json, reply: Result<Response, string>)
    returns (acts: seq<C.Action>)
    requires id0 != id1
    ensures
      var origins := [Origin(chain, req.(id := id0)), Origin(chain, req.(id := id1))];
      && Handled(d, origins, u => reply, acts)
      && C.After(acts).calls[1].phase == C.Done(UpstreamAnswer(id0, reply), 0)
      && C.After(acts).calls[1].phase.resp.id != origins[1].req.id
  {
    var key, answer := KeyOf(d, chain.chainId, req), UpstreamAnswer(id0, reply);
    acts := [C.Begin(key), C.Begin(key), C.Lookup(0), C.Insert(0), C.Lookup(1), C.Complete(0, answer),
             C.Send(0, true), C.Receive(1, true)];
    C.AnswerIsTakenOver(key, answer);
    assert NormalizeForCache(req.(id := id0)) == NormalizeForCache(req.(id := id1)) == NormalizeForCache(req);
    AnswerHasId(id0, reply);
  }
}
