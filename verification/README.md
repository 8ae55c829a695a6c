# Poolbeg: verified model

Poolbeg is a caching proxy for Ethereum JSON-RPC. It answers requests from a Redis cache where it
can, coalesces identical requests in flight, spreads the rest over several upstream nodes, follows
the head of the chain and passes new blocks and logs on to WebSocket subscribers. This project
models the stateful core of the proxy in Dafny and proves what it guarantees over whole runs.

Each module follows one source file or one component:

| module | what it models |
|---|---|
| `Coalescer`, `SharedCoalescer` | the request coalescer as a protocol between any number of calls, and as a shared object |
| `RateLimiter` | the token bucket of an upstream |
| `UpstreamHealth`, `UpstreamClient`, `Latency` | health, disabling, recovery and latency of one upstream, as values and as an object |
| `UpstreamStrategy`, `Failover`, `ChainManager`, `TrackerChoice` | choosing an upstream, the failover loops of `forward_request`, and the choice of the block tracker |
| `CacheKeys`, `CachePolicy`, `RedisStore`, `CacheLayer`, `CacheRuns` | the cache, its head-set index, and what holds after every run of its writers |
| `RpcTypes`, `Numerals`, `RequestHandler`, `CoalescedCalls`, `BatchProcessor` | requests, block tags, the handling of one request, of requests that are coalesced, and of a batch |
| `BlockEvents`, `BlockTracker`, `WsSubscriber` | following the head by polling and over an upstream WebSocket |
| `LogFilter`, `Subscriptions` | log filters and the delivery of notifications |

Objects that the source updates in place are classes. Their methods are proved equal to functions on
values, and lemmas about those functions carry the results over whole runs. Time, the random draw,
the replies of the network, the scheduler and fresh identifiers are parameters, so every result holds
for all of them. The digest of a cache key is any collision-free function into strings of lower-case
hexadecimal digits.

Where the code and its documentation disagree, the model follows the code, and a lemma says exactly
when the documented behaviour holds:

- The README of the repository says that failing upstreams back off up to ten minutes. The longest
  backoff is 160 seconds, since the sixth failure disables the upstream (`BackoffDoubles`).
- Coalescing is described as one upstream call for identical requests. Two calls that both look
  before either inserts both execute (`TwoExecutionsAtOnce`). A run never has two executions for a key
  under way if and only if no call inserts in it while another one executes (`OneExecutionIff`).
- A coalesced answer carries the id of the call that executed. Over every run of the coalescer it has
  the caller's id if and only if the two requests have the same id (`ReturnedIdIff`); in
  `WrongIdIsReturned` they have not.
- A leader that is dropped while it executes leaves its sender in the map, and its waiters wait on
  (`DroppedLeaderStrandsWaiter`). Once all that is left of a key is such a leader's entry, no call for it
  ever returns again (`BlockedForGood`). `StalledIff` says when calls are stuck; if no leader is dropped, none
  ever is (`LeadersCompleteAllFinish`).
- A disabled upstream is said to be retried after the configured interval. But a failure, of a request
  or of a health check, writes its backoff over the time that a fifth HTTP error has just set, so the
  interval is honoured exactly under the conditions of `AttemptHonoursRetryIff` and
  `CheckHonoursRetryIff`. `FiveErrorsAreRetriedEarly` is a run of five failing requests after which a
  disabled upstream is due again in 160 seconds.
- Finalized data is said to be cached long. Finality is judged after block tags were replaced by
  numbers, so a request for a final block is stored as final exactly when no head is known or another
  parameter says so (`FinalTagIsKeptIff`, `ResolvedFinalizedIff`); `FinalizedBalanceIsKeptBriefly` is an
  example.

## Model

| member | source | states |
|---|---|---|
| `Coalescer.RunKeepsInvariant` | src/rpc/coalescer.rs:53-94 | in every interleaving, every entry of the in-flight map belongs to a call for that key that inserted it and has not removed it, also when leaders overwrite or remove each other's entries; all time stamps are consistent |
| `Coalescer.MapEmptyWhenIdle` | src/rpc/coalescer.rs:79-92 | the map is empty whenever no call is between its insert and its remove and none was dropped there |
| `Coalescer.AnswersAreFresh` | src/rpc/coalescer.rs:53-94 | the answer a call returns was produced by an execution for the same key: its own, after it began, or one that was broadcast after it began |
| `Coalescer.ActionsInOrder` | src/rpc/coalescer.rs:52-94 | the actions of a call happen in program order, each at most once, so a call waits at most once and executes at most once |
| `Coalescer.EndsIff` | src/rpc/coalescer.rs:57-77 | in every run a call has returned the answer of another call exactly when it received one that it could decode, and is gone without one exactly when it was dropped; an answer that does not decode or a closed channel never ends a call |
| `Coalescer.EntryIff` | src/rpc/coalescer.rs:53-92 | after every run the map holds the channel of a call under a key exactly when that call inserted it and no call for the key has inserted or removed since |
| `Coalescer.RemoveTakesTheKey` | src/rpc/coalescer.rs:91-92 | after every run that ends with a remove the key of that call has no entry, whoever owned it |
| `Coalescer.RemoveTakesAnothersEntry` | src/rpc/coalescer.rs:79-92 | a concrete run in which one leader removes the entry of another that still executes, so that a third call for the key misses and executes as well |
| `Coalescer.StepsUseUpWork` | src/rpc/coalescer.rs:52-94 | every action except the arrival of a call strictly decreases a measure |
| `Coalescer.RunsAreShort` | src/rpc/coalescer.rs:52-94 | a run with n calls has at most 8n actions, however they interleave |
| `Coalescer.CanMoveIff` | src/rpc/coalescer.rs:52-94 | a call can move exactly when some action of its own other than being dropped is enabled |
| `Coalescer.StalledIff` | src/rpc/coalescer.rs:52-94 | nothing more can happen exactly when every call has returned, was dropped, or waits for a leader that was dropped while executing |
| `Coalescer.LeadersCompleteAllFinish` | src/rpc/coalescer.rs:52-94 | in a run in which no call is dropped while it executes, no call is ever stranded, and the run is over exactly when every call has returned or was dropped while it waited |
| `Coalescer.OneLeaderIff` | src/rpc/coalescer.rs:79-92 | a run never has two calls for one key between their inserts and removes if and only if no insert in it finds the entry of a call that still leads |
| `Coalescer.OneExecutionIff` | src/rpc/coalescer.rs:53-84 | a run never has two executions for one key under way if and only if no call inserts in it while another one with its key executes |
| `Coalescer.NeverOverwritesNeverJoins` | src/rpc/coalescer.rs:79-84 | it is enough for that, in every run, that no insert overwrites the entry of a call that still leads |
| `Coalescer.OverwritingWithoutJoining` | src/rpc/coalescer.rs:79-89 | and it is not necessary: a concrete run that overwrites such an entry and never has two executions under way |
| `Coalescer.TwoExecutionsAtOnce` | src/rpc/coalescer.rs:53-84 | a concrete run after which two calls for one key are both executing |
| `Coalescer.DroppedLeaderStrandsWaiter` | src/rpc/coalescer.rs:58-92 | a concrete run in which a dropped leader strands the call that waits for it and blocks the key |
| `Coalescer.BlockedForGood` | src/rpc/coalescer.rs:52-92 | if the entry of a key is a dropped leader's, and every call for it has not looked yet, waits for that leader or is past its remove, then so it stays in every continuation of the run, and no further call for the key ever returns |
| `SharedCoalescer.RequestCoalescer.LookupAndSubscribe` | src/rpc/coalescer.rs:53-55 | looking a key up and subscribing is one action of the protocol and changes nothing else |
| `SharedCoalescer.RequestCoalescer.FinishWaiting` | src/rpc/coalescer.rs:57-77 | a receive that completes takes over the broadcast answer, or falls through when it does not decode or the channel closed |
| `SharedCoalescer.RequestCoalescer.OpenChannel` | src/rpc/coalescer.rs:79-81 | a call that missed inserts its own channel, whatever the map holds by then |
| `SharedCoalescer.RequestCoalescer.Broadcast` | src/rpc/coalescer.rs:86-89 | the answer is sent if it serializes |
| `SharedCoalescer.RequestCoalescer.CleanUp` | src/rpc/coalescer.rs:91-92 | it is the protocol's remove, after which the key has no entry, whoever owned it |
| `SharedCoalescer.RequestCoalescer.Advance` | src/rpc/coalescer.rs:42-95 | the object takes exactly the next action of the call, in the order of the source |
| `SharedCoalescer.RequestCoalescer.RunToCompletion` | src/rpc/coalescer.rs:42-95 | under any scheduler and any upstream answers the calls run to an end in which each has returned, was dropped before or is stranded; none is stranded if no executing call was dropped |
| `RateLimiter.Limiter.constructor` | src/middleware/rate_limit.rs:21-29 | a new bucket is full |
| `RateLimiter.Limiter.TryAcquire` | src/middleware/rate_limit.rs:32-44 | refill, cap, and a token taken exactly when a whole one is there |
| `RateLimiter.Serve` | src/middleware/rate_limit.rs:32-44 | over any sequence of arrivals the limiter decides as the greedy schedule and holds that schedule's tokens |
| `RateLimiter.TokensPaidFor` | src/middleware/rate_limit.rs:32-44 | the grants since any arrival and the tokens left are paid for by a full bucket and the refill since |
| `RateLimiter.WindowBound` | src/middleware/rate_limit.rs:21-44 | in any window of length T at most max_rps * (1 + T) requests are granted |
| `RateLimiter.BoundIsReached` | src/middleware/rate_limit.rs:21-44 | the bound is tight: for every rate and length there are arrivals that use it up exactly |
| `RateLimiter.GreedyStaysAhead` | src/middleware/rate_limit.rs:32-44 | whatever another schedule has saved up over the limiter, the limiter has already granted |
| `RateLimiter.GreedyIsOptimal` | src/middleware/rate_limit.rs:32-44 | on every prefix of every sequence of arrivals no schedule under the same refill and cap rule has granted more than the limiter |
| `UpstreamHealth.PruningIsInvisible` | src/upstream/client.rs:110-117 | over every run, dropping old errors changes no flag, count, check time or later decision, compared with a history that is never pruned |
| `UpstreamHealth.EnabledIsSafe` | src/upstream/client.rs:121-154 | after every run and at every later time an enabled upstream has fewer than 6 failures in a row and fewer than 5 errors within the hour of its full history, and a disabled one is never healthy |
| `UpstreamHealth.BackoffDoubles` | src/upstream/client.rs:140-154 | the k-th failure in a row, k < 6, waits 10 * 2^(k-1) seconds; the cap is never reached |
| `UpstreamHealth.SixFailuresDisable` | src/upstream/client.rs:140-154 | without a success in between failures add up in 32 bits, that is modulo 2^32, and from the sixth on the upstream is and stays disabled, also when the count wraps |
| `UpstreamHealth.FailingCheckReschedules` | src/upstream/health.rs:25-93 | when the next check comes after each failing due check, for every count including its wrap-around |
| `UpstreamHealth.ChecksAreOnTime` | src/upstream/health.rs:21-34 | a check takes place exactly from the time on for which it is scheduled; before, nothing changes |
| `UpstreamHealth.RecoveryIff` | src/upstream/health.rs:35-68 | a passing due check re-enables a disabled upstream, healthy and without failures or errors, if and only if fewer than 5 errors are within the window |
| `UpstreamHealth.SuccessIff` | src/upstream/client.rs:121-135 | what a successful request does: no failures are left, a disabled upstream is enabled if and only if fewer than 5 errors are within the window, it stays as healthy as it was, and when its next check is due |
| `UpstreamHealth.HttpErrorIs` | src/upstream/client.rs:202-219 | an HTTP error is added to those within the window and disables the upstream for the configured interval exactly if it is then at least the fifth; otherwise nothing else changes |
| `UpstreamHealth.UsableAgainIff` | src/upstream/health.rs:35-68 | in every run an upstream that is not usable becomes so exactly by a passing due check, with fewer than 5 errors within the window if it was disabled; no request makes it usable |
| `UpstreamHealth.StaysUnusable` | src/upstream/health.rs:35-68 | so it stays unusable as long as no check passes, whatever requests do |
| `UpstreamHealth.RecentAre` | src/upstream/client.rs:110-117 | the errors that still count are exactly those less than an hour old, as often as they occurred |
| `UpstreamHealth.FailureHonoursRetryIff` | src/upstream/client.rs:140-154 | a failure, after an HTTP error or not, leaves a disabled upstream alone for the configured interval exactly when its own backoff is long enough or it was enabled and no fifth error disabled it |
| `UpstreamHealth.CheckHonoursRetryIff` | src/upstream/health.rs:25-93 | when a due health check honours the interval: exactly if it passes, or as above |
| `UpstreamClient.Client.constructor` | src/upstream/client.rs:54-87 | a new upstream is enabled, healthy, due at once and unmeasured |
| `UpstreamClient.Client.HasTooManyHttpErrors` | src/upstream/client.rs:110-117 | prunes the window in place and counts it |
| `UpstreamClient.Client.RecordSuccess` | src/upstream/client.rs:121-135 | resets the failures; a disabled upstream comes back only with few errors |
| `UpstreamClient.Client.RecordFailure` | src/upstream/client.rs:140-154 | counts, and backs off or disables |
| `UpstreamClient.Client.RecordHttpError` | src/upstream/client.rs:202-219 | remembers, prunes, and disables at the fifth error within the window |
| `UpstreamClient.Client.UpdateLatency` | src/upstream/client.rs:167-177 | the first sample is taken, later ones are averaged in wrapping arithmetic |
| `UpstreamClient.Client.HealthCheckTick` | src/upstream/health.rs:21-94 | one iteration of the loop is the specified transition of the health state |
| `Latency.AverageWithinSamples` | src/upstream/client.rs:167-177 | the average lies within every range that contains all samples, as long as they are small enough not to overflow |
| `Latency.ConstantSampleConverges` | src/upstream/client.rs:167-177 | under a constant sample c the average moves monotonically and reaches, within as many updates as it is microseconds away, c from above or a value in [c-3, c] from below, and stays |
| `UpstreamStrategy.FirstMin` | src/upstream/strategy.rs:32-34 | the position of the first of the least keys |
| `UpstreamStrategy.FastestIsChosen` | src/upstream/strategy.rs:19-34 | lowest latency selects a candidate that no other beats, the first one of those, and leaves the counter alone |
| `UpstreamStrategy.OneCycleChoosesAll` | src/upstream/strategy.rs:24-27 | n selections in a row among n candidates choose every candidate once, from any counter that does not wrap meanwhile |
| `UpstreamStrategy.RoundRobinIsFair` | src/upstream/strategy.rs:19-27 | over any m selections in a row during which the counter does not wrap, every candidate is picked m/n times, rounded down or up |
| `Failover.PreferredFirstIs` | src/upstream/manager.rs:196-206 | the attempt order is a permutation of the candidates with the preferred one first and the others in configuration order |
| `Failover.PlanIsExact` | src/upstream/manager.rs:175-206 | the attempts of all tiers list exactly the usable upstreams, each once, tier by tier |
| `Failover.PlanIsConfigured` | src/upstream/manager.rs:196-206 | within every tier of the plan all but the first are in configuration order |
| `Failover.TiersFollowPlan` | src/upstream/manager.rs:175-305 | the loop over tiers, which looks at each tier only when it gets there, does what trying that list in order does |
| `Failover.TryAllSends` | src/upstream/manager.rs:208-304 | requests go to exactly the candidates that have a token, in order, up to and including the first that answers |
| `Failover.FailoverIsExact` | src/upstream/manager.rs:170-329 | who is sent the request and what comes back, for every state and every behaviour of the network: the first answer, or each of the three errors exactly in its case |
| `Failover.LowerTiersUntouched` | src/upstream/manager.rs:208-304 | after an answer every upstream of a lower tier, and every one that was not usable, is as it was |
| `Failover.ForwardTriesReached` | src/upstream/manager.rs:208-304 | a request puts exactly the candidates up to the first that answers through one attempt each, and leaves every other upstream as it was |
| `Failover.AttemptIs` | src/upstream/manager.rs:208-304 | what one attempt does: the bucket is refilled and a token taken if there is one, the latency takes one sample if any response came back, and the health records the error, the success or the failure |
| `Failover.FailedCheckKeepsAway` | src/upstream/manager.rs:180-185 | after a due health check that does not pass, an upstream gets no request and is not polled until a check passes, in every run |
| `Failover.CounterTakesTurns` | src/upstream/manager.rs:175-206 | over a whole request the round-robin counter moves on by one for every tier the request got to that has at least two usable upstreams, and under other strategies never |
| `Failover.NextRequestMovesOn` | src/upstream/strategy.rs:24-27 | two requests in a row over the same candidates start with the one whose turn it is and with the next one |
| `Failover.ForwardIsRun` | src/upstream/manager.rs:208-304 | forwarding a request is, for every upstream, a run of its health bookkeeping at the time its attempt ends |
| `Failover.ForwardKeepsSafe` | src/upstream/manager.rs:170-329 | so after any request an upstream that came about by a run still has, at every later time, the guarantees of `EnabledIsSafe` |
| `Failover.AttemptHonoursRetryIff` | src/upstream/client.rs:202-248 | when an attempt honours the configured retry interval: exactly if it is answered, its failure backs off long enough, or the upstream was enabled and no fifth HTTP error disabled it |
| `Failover.FiveErrorsAreRetriedEarly` | src/upstream/client.rs:150-153 | a run from creation: an unreachable upstream stays usable for four requests, is disabled by the fifth and due again after 160 seconds, before its interval |
| `Failover.BestIsOfBestTier` | src/upstream/tracker.rs:263-284 | the tracker finds an upstream exactly when some upstream is usable; what it finds is usable and no usable upstream is of a higher tier |
| `Failover.TrackerTakesTurns` | src/upstream/tracker.rs:263-284 | under round robin each poll takes the candidate whose turn it is in the tracker's own order, and its counter moves on by one if there is a choice |
| `Failover.FastestComesFirst` | src/upstream/strategy.rs:32-34 | under lowest latency a request is tried first on, and the tracker polls, the first of the fastest usable upstreams of the first tier that has one |
| `Failover.SameChoiceIff` | src/upstream/tracker.rs:263-284 | with counters and draws of their own, tracker and manager choose the same upstream first exactly when the tier has one candidate, the latency decides, or counters (or draws) agree modulo the candidates |
| `Failover.ChoicesMayDiffer` | src/upstream/tracker.rs:263-284 | two new primaries between which the two choose differently |
| `ChainManager.Manager.TierMembers` | src/upstream/manager.rs:180-185 | collects the usable upstreams of a tier in configuration order |
| `ChainManager.Manager.AttemptOrder` | src/upstream/manager.rs:196-206 | the loop builds the specified attempt order |
| `ChainManager.Manager.Try` | src/upstream/manager.rs:208-303 | one attempt updates the bucket, errors, latency and health of its own upstream and of no other |
| `ChainManager.Manager.TryTier` | src/upstream/manager.rs:208-304 | the attempts of one tier, in place, are the specified trial, and no request is sent exactly when all were limited |
| `ChainManager.Manager.TryTiers` | src/upstream/manager.rs:171-305 | the nested loops over the objects are the specified failover |
| `ChainManager.Manager.ForwardRequest` | src/upstream/manager.rs:170-329 | result, upstream states and counter are those of the failover that `FailoverIsExact` is about |
| `TrackerChoice.Chooser.SelectBestUpstream` | src/upstream/tracker.rs:263-284 | the loop finds the specified upstream and moves only the counter of the tracker |
| `Numerals.PrintThenValue` | src/cache/keys.rs:6-35 | printing a number in decimal or hexadecimal and reading it back gives the number |
| `Numerals.PrintInjective` | src/cache/keys.rs:6-35 | different numbers print differently |
| `Numerals.HexRoundTrip` | src/upstream/tracker.rs:141-142 | an unsigned 64-bit number printed with `0x` and read by stripping prefixes and parsing base 16 is itself |
| `Numerals.QuantityLaws` | src/upstream/tracker.rs:141-142 | what else is read as a quantity: any number of prefixes and a plus sign are accepted; no digits, and numbers of more than 64 bits, are not |
| `CacheKeys.EncodeInjective` | src/cache/keys.rs:6-35 | keys of different families, chains, requests, numbers or hashes never collide |
| `CacheKeys.SameKeyIff` | src/rpc/types.rs:89-96 | requests share a cache key exactly when they agree on method and parameters |
| `CachePolicy.FirstPolicyDecides` | src/cache/policy.rs:7-31 | the first policy that applies decides |
| `CachePolicy.DefaultTtl` | src/cache/policy.rs:7-31 | without an applicable policy the default for the finality holds |
| `RedisStore.RedisClient.Get` | src/cache/redis.rs:25-33 | finds exactly the texts that have not expired |
| `RedisStore.RedisClient.Set` | src/cache/redis.rs:37-52 | replaces the entry, with an expiry unless the time is zero |
| `RedisStore.RedisClient.Sadd` | src/cache/redis.rs:62-66 | adds a member, starts a set, or does nothing on a text |
| `RedisStore.RedisClient.Smembers` | src/cache/redis.rs:69-77 | returns exactly the members, in some order |
| `RedisStore.RedisClient.DeleteSetAndMembers` | src/cache/redis.rs:80-92 | removes the set and everything it lists, whatever the order, and nothing else |
| `CacheLayer.Cache.Get` | src/cache/mod.rs:31-34 | reads the entry of the request's key |
| `CacheLayer.Cache.Set` | src/cache/mod.rs:37-65 | stores a reply for as long as the policy says, and lists it if it is near the head |
| `CacheLayer.Cache.CacheBlock` | src/cache/mod.rs:68-87 | stores a block under both its keys and lists both |
| `CacheLayer.Cache.CacheLogs` | src/cache/mod.rs:90-99 | stores the logs of a block and lists them |
| `CacheLayer.Cache.InvalidateHeadCache` | src/cache/mod.rs:109-113 | wipes what the head set lists |
| `CacheRuns.HeadSetIsComplete` | src/cache/mod.rs:37-99 | after every run of answers, blocks, logs and reorganizations on any chains, every entry near the head is in its chain's head set, which lists nothing else |
| `CacheRuns.InvalidationIsExact` | src/cache/mod.rs:109-113 | invalidation removes exactly the chain's entries near the head; every finalized reply and every other chain's entry stays as it was |
| `CacheRuns.ReorgWipesExactly` | src/cache/redis.rs:80-92 | the same, after every run |
| `CacheRuns.RepliesAreStored` | src/rpc/handler.rs:387-404 | after every run every cached reply is the last error-free answer of the run that is kept under its key, kept as long as the policy says, and its chain was not reorganized since if it is near the head |
| `CacheRuns.AnswersStay` | src/cache/mod.rs:37-65 | conversely, after every run every answer that was to be kept is in the cache until an answer to the same request replaces it or a reorganization has to remove it |
| `CacheRuns.LookupIff` | src/cache/mod.rs:31-65 | after every run a read at a reply key finds a reply exactly when it is that of the last answer kept there, no reorganization had to remove it and its time is not up |
| `CacheRuns.AnswerIsServed` | src/cache/mod.rs:37-65 | an error-free answer to a cacheable method that the policy allows is found at every time before its own is up, and not after; at every time if it has none |
| `RpcTypes.ResolutionIsStable` | src/rpc/types.rs:152-181 | a request that was resolved against one head is not changed by any other |
| `RpcTypes.ResolvedTagParses` | src/rpc/types.rs:152-181 | the number a tag resolves to reads back as the one meant: the head, the head less the depth but not below zero, or zero; never above the head |
| `RpcTypes.ResolutionIsLocal` | src/rpc/types.rs:152-181 | only the block reference changes; "pending" never does |
| `RpcTypes.TagPositions` | src/rpc/types.rs:128-146 | which parameter of which method is a block tag, for every method: seen from a request with a tag at every position |
| `RpcTypes.BlockedIff` | src/rpc/types.rs:98-103 | a method is blocked exactly when it is a configured prefix followed by anything |
| `RpcTypes.FirstVerdictIsFirst` | src/rpc/types.rs:201-212 | the first parameter that is a tag decides |
| `RpcTypes.FinalizedIff` | src/rpc/types.rs:185-231 | exactly which requests, as they are, count as finalized |
| `RpcTypes.VerdictOfReference` | src/rpc/types.rs:185-231 | what each string means as a block reference: which two are final, which three are not, and that any other leaves it to the other parameter |
| `RpcTypes.ResolvedFinalizedIff` | src/rpc/types.rs:152-231 | which still do once their block tag is replaced, in terms of the request as it came: the block reference no longer counts for it, the first tag among the other parameters decides |
| `RequestHandler.ForwardToUpstream` | src/rpc/handler.rs:377-418 | answer and cache after an upstream call: stored only if cacheable and error-free, returned under the caller's id |
| `RequestHandler.CoalescedForward` | src/rpc/handler.rs:357-375 | a call that takes over another execution answers with that call's reply under that call's id and stores nothing; otherwise it forwards |
| `RequestHandler.ProcessSingleRequest` | src/rpc/handler.rs:123-213 | answer and cache for every branch: blocked, from memory, hit, unreadable entry, coalesced, forwarded |
| `RequestHandler.BlockedIsRefused` | src/rpc/handler.rs:139-152 | a method with a blocked prefix is refused with error -32601, also if it could be answered from memory |
| `RequestHandler.MemoryIsRight` | src/rpc/handler.rs:217-268 | what is answered from memory reads back as the chain id, in base 16 and in base 10, and as the head; nothing else is |
| `RequestHandler.AlwaysForwarded` | src/rpc/types.rs:105-124 | the thirteen uncacheable methods are answered by the upstreams under the caller's id, whatever is in the cache, and their replies are never stored |
| `RequestHandler.SecondRequestHits` | src/rpc/handler.rs:161-213 | after every run a request that the upstreams answer is, when it comes again under any id, a hit with that answer, until its time is up, it is replaced or a reorganization has to remove it |
| `RequestHandler.PolicyIsHonoured` | src/cache/policy.rs:7-40 | the first policy that covers a request decides whether its answer is served from the cache and how long: never, forever, or for its time, where zero means forever |
| `RequestHandler.ResolvedReadsBack` | src/rpc/handler.rs:161-166 | with a head known the block reference reads back as the number meant, with the chain's own finality depth; without one the request stays as it is |
| `RequestHandler.FinalTagIsKeptIff` | src/rpc/handler.rs:161-166 | a request for a final block is stored as final exactly when no head is known or the first tag among its other parameters is final |
| `RequestHandler.FinalizedBalanceIsKeptBriefly` | src/rpc/handler.rs:387-404 | a balance at the finalized block is kept an hour by default before a head is known, and three seconds after |
| `RequestHandler.HitIsTransparent` | src/rpc/handler.rs:161-213 | after every run a hit is, under the caller's id, an error-free upstream answer to the same resolved method and parameters on the same chain, stored less than the policy's time ago unless that is zero, with no reorganization since if it is near the head |
| `RequestHandler.NeverStored` | src/rpc/handler.rs:387-404 | no run stores a reply to an uncacheable method or to one the policy never stores |
| `RequestHandler.HandlingIsAWriter` | src/rpc/handler.rs:161-213 | handling a request writes at most one upstream answer, and none on a hit, so the results over runs cover it |
| `RequestHandler.RunIsCoherent` | src/rpc/handler.rs:387-404 | from the empty cache, every run of the upstream's answers on a chain, other chains' answers, blocks, logs and reorganizations leaves every cached reply of the chain the upstream's, but for the id |
| `RequestHandler.CacheIsInvisible` | src/rpc/handler.rs:161-213 | with upstreams that answer, or fail, as a function of the normalized request, handling over such a cache gives the answer without a cache but for the id, and keeps the cache so; the id is right exactly when nothing was taken over from a call with another id |
| `CoalescedCalls.ReturnedIdIff` | src/rpc/handler.rs:357-375 | over every run of the coalescer a returned answer is the upstream's to a request with the same method and parameters on the same chain, and has the caller's id exactly when that request has |
| `CoalescedCalls.SameIdsReturnRightId` | src/rpc/handler.rs:357-375 | so it is right whenever all requests of the run for the same method and parameters on the same chain have the same id |
| `CoalescedCalls.MissIsAnsweredByRun` | src/rpc/handler.rs:191-210 | a request that misses is answered as its call in the run returns, so its id is right exactly in that case |
| `CoalescedCalls.RunAgreesWithOracle` | src/rpc/handler.rs:357-375 | what a call takes over agrees with what it would have got itself, so `CacheIsInvisible` covers coalesced requests |
| `CoalescedCalls.WrongIdIsReturned` | src/rpc/handler.rs:369-374 | a concrete run of two clients in which the second is answered under the first one's id |
| `BatchProcessor.FindDuplicates` | src/rpc/handler.rs:284-301 | the first pass points every duplicate at its first occurrence and marks exactly the rest as to be processed |
| `BatchProcessor.ProcessFirsts` | src/rpc/handler.rs:304-333 | the second pass processes exactly the positions that the first pass left unmarked, each once and in order, and puts their answers in their places |
| `BatchProcessor.UnnotedAreFirsts` | src/rpc/handler.rs:291-333 | those are the first occurrences, of which `SkippedIff` says which they are |
| `BatchProcessor.SkippedIff` | src/rpc/handler.rs:291-301 | in terms of the requests alone: a position is not processed exactly when its method may be cached and is not blocked and an earlier position has the same method and parameters |
| `BatchProcessor.TransactionsAreAllSent` | src/rpc/handler.rs:291-301 | a raw transaction that a batch submits twice is sent twice |
| `BatchProcessor.FillDuplicates` | src/rpc/handler.rs:336-351 | the third pass copies, replaces ids, and never unwraps an empty slot |
| `BatchProcessor.ProcessBatch` | src/rpc/handler.rs:274-352 | as many answers as requests, in order: processed ones from one pass over the first occurrences, the others copies of a first occurrence under their own id |
| `BatchProcessor.BatchKeepsIds` | src/rpc/handler.rs:336-351 | if processing keeps ids, every answer has the id of its request (sections 5 and 6 of the JSON-RPC 2.0 Specification) |
| `BatchProcessor.DedupIsInvisible` | src/rpc/handler.rs:284-351 | with processing that depends on method and parameters only, the batch equals processing every request in order |
| `BatchProcessor.FirstIsTransparent` | src/rpc/handler.rs:304-333 | end to end, whatever head, times and coalesced calls come along meanwhile, a first occurrence is answered as without a cache at the head known then, under its own id unless it took over a call with another id |
| `BatchProcessor.CopyIsTransparent` | src/rpc/handler.rs:336-351 | every other position is answered exactly as without a cache when its first occurrence was processed, always under its own id |
| `BatchProcessor.BatchIsTransparent` | src/rpc/handler.rs:274-352 | if the head stays and no answer comes from a call with another id, the batch is answered as if neither the cache nor the deduplication existed |
| `BlockEvents.RecordsAre` | src/upstream/ws_subscriber.rs:269-289 | the reference stream consists of exactly the heights above everything before them |
| `BlockEvents.RecordsIncrease` | src/upstream/ws_subscriber.rs:269-289 | it is strictly increasing and ends with the maximum |
| `BlockEvents.BlockIsRead` | src/upstream/tracker.rs:141-150 | a block's height and hash are what its number, in the format of the interface, and its hash say, and it is usable exactly when both are there, above zero and not empty |
| `BlockTracker.Poller.FetchLatestBlock` | src/upstream/tracker.rs:125-231 | one poll: nothing, a reorganization, or a new block, with its events and cache writes in the order in which the statements make them, and its state |
| `BlockTracker.Poller.Run` | src/upstream/tracker.rs:83-123 | the polling loop is the fold of its polls |
| `BlockTracker.LatestIsMaximum` | src/upstream/tracker.rs:219-223 | the height kept and the number published are the greatest valid height polled |
| `BlockTracker.RecordsWhileDownAre` | src/upstream/tracker.rs:198-209 | the reference: a height is in it exactly when some valid poll above all before showed it while no WebSocket forwarded heads |
| `BlockTracker.PollingAnnouncesRecords` | src/upstream/tracker.rs:141-209 | the heights announced are exactly those; with no WebSocket throughout, all strict prefix maxima of the valid heights polled |
| `BlockTracker.HashIsLastAtHead` | src/upstream/tracker.rs:170-220 | the hash kept is that of the last valid poll at the greatest height |
| `BlockTracker.ReorgIffHashChanged` | src/upstream/tracker.rs:167-189 | a poll announces a reorganization exactly when it shows the greatest height with another hash; it announces one, invalidates right after, does nothing else, and the same block again does nothing |
| `BlockTracker.ReorgPollWipesHead` | src/upstream/tracker.rs:177-185 | that poll leaves no entry near the head of its chain in the cache, and everything else as it was, after every run of writers |
| `BlockTracker.NewBlockIsCached` | src/upstream/tracker.rs:192-262 | a poll that finds a new block leaves it in the cache by number for a minute and by hash for an hour, and its logs for a minute, after every run of writers |
| `BlockTracker.NewBlockIsAnnounced` | src/upstream/tracker.rs:192-262 | such a poll announces the block, unless a WebSocket does, with a header of everything but four fields, and then its logs, if they were returned |
| `BlockTracker.HeaderKeepsTheRest` | src/upstream/tracker.rs:291-304 | a header has every field of the block but four, so it keeps height and hash |
| `WsSubscriber.Subscriber.HandleMessage` | src/upstream/ws_subscriber.rs:213-293 | what one message does: a pong, an announcement, or nothing |
| `WsSubscriber.Subscriber.ForwardNotifications` | src/upstream/ws_subscriber.rs:199-303 | over a whole session, events, pongs and the published number are those of the accepted messages before it ends, and the result tells a failure from a close |
| `WsSubscriber.SessionAnnouncesRecords` | src/upstream/ws_subscriber.rs:209-289 | a session announces the strict prefix maxima of its accepted heights, the same function as polling |
| `WsSubscriber.AnnouncedIsHeader` | src/upstream/ws_subscriber.rs:213-293 | every announcement of a session is of a header received in it, unchanged, with its height and hash |
| `WsSubscriber.SessionIs` | src/upstream/ws_subscriber.rs:209-303 | a session is what comes before the first close or failure; anything else does not end it |
| `WsSubscriber.HeadersAreNotified` | src/upstream/ws_subscriber.rs:226-262 | a header is found in exactly the notifications of the subscription's own id with a result, and is that result |
| `LogFilter.MatchesIffAccepts` | src/ws/subscription.rs:37-117 | a parsed filter matches a log exactly when the filter document accepts its address and the topic at every restricted position |
| `LogFilter.MatchingIgnoresCase` | src/ws/subscription.rs:74-117 | matching does not depend on the case of letters in the filter or in the log |
| `LogFilter.PositionsAreOwnIff` | src/ws/subscription.rs:87-113 | topics that are no strings are left out before positions are counted, which makes no difference to any filter if and only if they come last in the log |
| `LogFilter.ShiftedFilter` | src/ws/subscription.rs:87-113 | for every other log, a filter that matches although the log does not have the string where the filter says |
| `Subscriptions.WantedAre` | src/ws/subscription.rs:294-313 | of an array of logs, each is delivered as often as it occurs if the filter document accepts it, and otherwise not at all |
| `Subscriptions.WantedArePassing` | src/ws/subscription.rs:294-313 | the logs delivered are those that pass the filter document, in their order |
| `Subscriptions.NotificationIsHeard` | src/ws/subscription.rs:267-274 | a notification that is sent is what the proxy's own upstream subscriber takes for a header of that subscription and of no other |
| `Subscriptions.NotificationsExtend` | src/ws/subscription.rs:267-274 | notifications of one subscription extend what it has received by exactly their results, and touch no other subscription and no reply on the channel |
| `Subscriptions.HeardStep` | src/ws/subscription.rs:235-315 | what a client hears of an id grows by what it is owed when an event is handled, and by nothing else |
| `Subscriptions.RunKeepsValid` | src/ws/subscription.rs:141-207 | subscriptions are filed under issued ids for existing clients, and an id not yet issued was never heard of |
| `Subscriptions.DeliveryIsExact` | src/ws/subscription.rs:141-315 | in every run a subscription has received exactly the in-order deliveries of the events handled between its subscribe and its unsubscribe or disconnect |
| `Subscriptions.KindsReceive` | src/ws/subscription.rs:237-315 | in every run a newHeads subscription has received exactly the headers of its chain's new blocks, a logs subscription the logs of its chain that pass its filter document, each of those handled while it was open and in order, and other kinds nothing |
| `Subscriptions.OnlyItsClientHears` | src/ws/subscription.rs:260-315 | in no run does another client receive a notification of a subscription |
| `Subscriptions.SubscriptionManager.Subscribe` | src/ws/subscription.rs:141-176 | files the subscription under a fresh id |
| `Subscriptions.SubscriptionManager.Unsubscribe` | src/ws/subscription.rs:179-198 | removes it and says whether it was there |
| `Subscriptions.SubscriptionManager.RemoveClientSubscriptions` | src/ws/subscription.rs:202-207 | drops exactly the subscriptions of closed channels, of whatever client, and counts them |
| `Subscriptions.SubscriptionManager.HandleEvent` | src/ws/subscription.rs:235-258 | one event gives every client exactly what it is owed for every subscription, which `KindsReceive` spells out, and events of other chains and reorganizations give nothing |
| `Subscriptions.SubscriptionManager.DispatchNewHeads` | src/ws/subscription.rs:261-279 | the loop over the subscriptions, in any order, serves each of them once |
| `Subscriptions.SubscriptionManager.DispatchLogs` | src/ws/subscription.rs:282-315 | the same for logs; a value that is no array gives nothing |
| `Subscriptions.SubscriptionManager.SendLogs` | src/ws/subscription.rs:294-313 | the inner loop sends the wanted logs in order, and none to a closed channel |

## Left out

- Sockets, HTTP and WebSocket framing, TLS, routing, metrics, logging, configuration, authentication and public-endpoint discovery: plumbing without state to prove anything about.
- JSON text and the digest: JSON is an abstract value, serialization is the identity, and the digest is any collision-free function; the length of a digest is not fixed.
- Redis: commands do not fail, nothing is evicted, and the conversion of durations to signed milliseconds is not modelled.
- Cache methods run one at a time: a reorganization between the write of an entry and its listing in the head set is not modelled.
- Methods of an upstream and one `forward_request` run without interleaving with other tasks.
- RateLimiter.Limiter.TryAcquire: uses real numbers, so the rounding of floating point is not modelled.
- UpstreamStrategy.RoundRobinIsFair: does not cover the wrap-around of the 64-bit counter, where one cycle can be cut short.
- The distribution of the random strategy: a draw is any number.
- UpstreamClient.Client.HealthCheckTick: takes the outcome of the check as a parameter, so the latency that the check itself measures, the block height it records and the gauge are not modelled.
- RpcTypes.ResolutionIsLocal: block tags are resolved on a request value; the source rewrites the element of the array it owns.
- `handle_rpc`: the batch size limit and parse errors are straight-line code.
- LogFilter.MatchingIgnoresCase: letters are ASCII; the lower-casing of other characters is not modelled.
- BlockTracker.LatestIsMaximum: is about the number as the tracker writes it; with a WebSocket writing it too it can go backwards.
- BlockTracker.Poller.Run: takes the polled blocks and their times as a sequence; skipped polls are polls without a block.
- Broadcast receivers that lag behind: delivery is stated over the events that are handled.
- Subscriptions.DeliveryIsExact: handling an event is one step, so a client that disconnects in the middle of it is not modelled.
- RedisStore.RedisClient.Set: lifetimes are whole milliseconds, so durations below one and above the signed 64-bit range are not modelled.
- Failover.AttemptHonoursRetryIff: is about attempts that get a token; without one the health of the upstream is not touched.
- The connect and reconnect loop of the WebSocket subscriber, `find_ws_upstream` and `read_subscription_id`: they would only add easy members.
- The number of WebSocket subscriptions and connections that the status loop reports.
