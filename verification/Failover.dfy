/** Forwarding one request through the tiers of upstreams (src/upstream/manager.rs), as a
    function on the state of the upstreams, and what it does in terms of a plan. */
module Failover {
  import opened Wrappers
  import opened RpcTypes
  import opened RateLimiter
  import opened UpstreamHealth
  import opened UpstreamClient
  import opened UpstreamStrategy
  import Latency

  /** How sending a request ends. */
  datatype Reply =
    | Answer(resp: Response, elapsedUs: nat)
    | Unreachable
    | HttpStatus(clientOrServerError: bool, elapsedUs: nat)
    | BadBody(elapsedUs: nat)

  /** What would happen if an upstream were tried: when it is asked for a token, when sending
      ends, and how.  One request tries an upstream at most once. */
  datatype Attempt = Attempt(askedAt: Time, doneAt: Time, reply: Reply)

  datatype Outcome = Limited | Lost | Won(resp: Response)

  predicate Usable(u: Upstream) {
    IsHealthy(u.health)
  }

  predicate HasToken(u: Upstream, a: Attempt) {
    Grants(u.bucket, a.askedAt)
  }

  /** The upstream after send_request. */
  function Sent(u: Upstream, a: Attempt): Upstream {
    match a.reply
    case Unreachable => u.(health := RecordHttpError(u.health, u.retry, a.doneAt))
    case HttpStatus(counts, elapsed) =>
      u.(latency := Latency.Update(u.latency, elapsed),
         health := if counts then RecordHttpError(u.health, u.retry, a.doneAt) else u.health)
    case BadBody(elapsed) => u.(latency := Latency.Update(u.latency, elapsed))
    case Answer(_, elapsed) => u.(latency := Latency.Update(u.latency, elapsed))
  }

  function OutcomeOf(u: Upstream, a: Attempt): Outcome {
    if !HasToken(u, a) then Limited
    else if a.reply.Answer? then Won(a.reply.resp)
    else Lost
  }

  /** The upstream after one attempt: it is asked for a token, and if it has one the request is
      sent and its success or failure recorded. */
  function AfterTry(u: Upstream, a: Attempt): Upstream {
    var v := u.(bucket := AfterAcquire(u.bucket, a.askedAt));
    if !HasToken(u, a) then v
    else
      var s := Sent(v, a);
      if a.reply.Answer? then s.(health := RecordSuccess(s.health, s.retry, a.doneAt))
      else s.(health := RecordFailure(s.health, s.retry, a.doneAt))
  }

  /** Tries upstreams in order until one answers. */
  datatype Trial = Trial(upstreams: seq<Upstream>, answer: Option<Response>, sent: seq<nat>)

  predicate InRange(order: seq<nat>, n: nat) {
    forall i :: 0 <= i < |order| ==> order[i] < n
  }

  function TryAll(us: seq<Upstream>, order: seq<nat>, env: nat -> Attempt): (r: Trial)
    requires InRange(order, |us|)
    ensures |r.upstreams| == |us|
    decreases |order|
  {
    if order == [] then Trial(us, None, [])
    else
      var i := order[0];
      var u := AfterTry(us[i], env(i));
      match OutcomeOf(us[i], env(i))
      case Won(resp) => Trial(us[i := u], Some(resp), [i])
      case Limited => TryAll(us[i := u], order[1..], env)
      case Lost =>
        var r := TryAll(us[i := u], order[1..], env);
        r.(sent := [i] + r.sent)
  }

  /** The usable upstreams of a tier, in configuration order. */
  function Members(us: seq<Upstream>, role: Role): (m: seq<nat>)
    ensures InRange(m, |us|)
  {
    MembersUpTo(us, role, |us|)
  }

  function MembersUpTo(us: seq<Upstream>, role: Role, n: nat): (m: seq<nat>)
    requires n <= |us|
    ensures InRange(m, n)
  {
    if n == 0 then []
    else
      var m := MembersUpTo(us, role, n - 1);
      if us[n - 1].role == role && Usable(us[n - 1]) then m + [n - 1] else m
  }

  function Latencies(us: seq<Upstream>, members: seq<nat>): seq<nat>
    requires InRange(members, |us|)
  {
    seq(|members|, k requires 0 <= k < |members| => us[members[k]].latency)
  }

  /** The preferred upstream first, then the others in configuration order. */
  function PreferredFirst(members: seq<nat>, p: nat): seq<nat>
    requires p < |members|
  {
    [members[p]] + members[..p] + members[p + 1..]
  }

  const TIERS: seq<Role> := [Primary, Secondary, Fallback]

  /** One tier: the order of attempts and the round-robin counter afterwards. */
  function TierOrder(us: seq<Upstream>, role: Role, s: Strategy, counter: nat, draw: nat): (r: (seq<nat>, nat))
    ensures InRange(r.0, |us|)
  {
    var members := Members(us, role);
    if members == [] then ([], counter)
    else
      var (p, c) := Select(Latencies(us, members), s, counter, draw);
      (PreferredFirst(members, p), c)
  }

  datatype Error = NoHealthyUpstreams | AllRateLimited | AllFailed

  datatype Forwarded = Forwarded(
    upstreams: seq<Upstream>,
    counter: nat,
    answer: Option<Response>,
    sent: seq<nat>,
    anyTried: bool)

  /** The loop over the tiers that are left. */
  function ForwardTiers(us: seq<Upstream>, tiers: seq<Role>, s: Strategy, counter: nat,
                        draws: Role -> nat, env: nat -> Attempt): (f: Forwarded)
    ensures |f.upstreams| == |us|
    decreases |tiers|
  {
    if tiers == [] then Forwarded(us, counter, None, [], false)
    else
      var (order, c) := TierOrder(us, tiers[0], s, counter, draws(tiers[0]));
      if order == [] then ForwardTiers(us, tiers[1..], s, c, draws, env)
      else
        var t := TryAll(us, order, env);
        if t.answer.Some? then Forwarded(t.upstreams, c, t.answer, t.sent, true)
        else
          var r := ForwardTiers(t.upstreams, tiers[1..], s, c, draws, env);
          r.(sent := t.sent + r.sent, anyTried := true)
  }

  function ResultOf(f: Forwarded): Result<Response, Error> {
    match f.answer
    case Some(resp) => Ok(resp)
    case None =>
      if !f.anyTried then Err(NoHealthyUpstreams)
      else if f.sent == [] then Err(AllRateLimited)
      else Err(AllFailed)
  }

  // ---------- the plan: every attempt of every tier, fixed before the first one ----------

  function Plan(us: seq<Upstream>, tiers: seq<Role>, s: Strategy, counter: nat, draws: Role -> nat): (p: seq<nat>)
    ensures InRange(p, |us|)
    decreases |tiers|
  {
    if tiers == [] then []
    else
      var (order, c) := TierOrder(us, tiers[0], s, counter, draws(tiers[0]));
      order + Plan(us, tiers[1..], s, c, draws)
  }

  /** The two states do not differ in any upstream of the given tiers. */
  ghost predicate SameIn(us: seq<Upstream>, vs: seq<Upstream>, tiers: seq<Role>) {
    && |us| == |vs|
    && forall i :: 0 <= i < |us| ==> us[i].role == vs[i].role && (us[i].role in tiers ==> us[i] == vs[i])
  }

  lemma {:induction false} MembersSame(us: seq<Upstream>, vs: seq<Upstream>, role: Role, n: nat)
    requires SameIn(us, vs, [role]) && n <= |us|
    ensures MembersUpTo(us, role, n) == MembersUpTo(vs, role, n)
  {
    if n > 0 {
      MembersSame(us, vs, role, n - 1);
    }
  }

  lemma {:induction false} MembersAre(us: seq<Upstream>, role: Role, n: nat)
    requires n <= |us|
    ensures
      var m := MembersUpTo(us, role, n);
      && (forall k :: 0 <= k < |m| ==> us[m[k]].role == role && Usable(us[m[k]]))
      && (forall i :: 0 <= i < n && us[i].role == role && Usable(us[i]) ==> i in m)
      && (forall j, k :: 0 <= j < k < |m| ==> m[j] < m[k])
  {
    if n > 0 {
      MembersAre(us, role, n - 1);
      var m := MembersUpTo(us, role, n - 1);
      assert MembersUpTo(us, role, n) == if us[n - 1].role == role && Usable(us[n - 1]) then m + [n - 1] else m;
    }
  }

  lemma TierOrderSame(us: seq<Upstream>, vs: seq<Upstream>, role: Role, s: Strategy, counter: nat, draw: nat)
    requires SameIn(us, vs, [role])
    ensures TierOrder(us, role, s, counter, draw) == TierOrder(vs, role, s, counter, draw)
  {
    MembersSame(us, vs, role, |us|);
    MembersAre(us, role, |us|);
    assert Latencies(us, Members(us, role)) == Latencies(vs, Members(vs, role));
  }

  lemma {:induction false} PlanSame(us: seq<Upstream>, vs: seq<Upstream>, tiers: seq<Role>, s: Strategy,
                                    counter: nat, draws: Role -> nat)
    requires SameIn(us, vs, tiers)
    ensures Plan(us, tiers, s, counter, draws) == Plan(vs, tiers, s, counter, draws)
    decreases |tiers|
  {
    if tiers != [] {
      TierOrderSame(us, vs, tiers[0], s, counter, draws(tiers[0]));
      PlanSame(us, vs, tiers[1..], s, TierOrder(us, tiers[0], s, counter, draws(tiers[0])).1, draws);
    }
  }

  /** Trying upstreams changes no other upstream, and no role. */
  lemma {:induction false} TryAllFrame(us: seq<Upstream>, order: seq<nat>, env: nat -> Attempt)
    requires InRange(order, |us|)
    ensures
      var vs := TryAll(us, order, env).upstreams;
      && (forall i :: 0 <= i < |us| ==> vs[i].role == us[i].role)
      && (forall i :: 0 <= i < |us| && i !in order ==> vs[i] == us[i])
    decreases |order|
  {
    if order != [] {
      var i := order[0];
      TryAllFrame(us[i := AfterTry(us[i], env(i))], order[1..], env);
    }
  }

  /** A trial that begins with one more upstream. */
  function Begun(o: Outcome, i: nat, vs: seq<Upstream>, rest: Trial): Trial {
    match o
    case Won(resp) => Trial(vs, Some(resp), [i])
    case Limited => rest
    case Lost => rest.(sent := [i] + rest.sent)
  }

  /** One trial after another, which takes place only if the first got no answer. */
  function Joined(t: Trial, r: Trial): Trial {
    if t.answer.Some? then t else Trial(r.upstreams, r.answer, t.sent + r.sent)
  }

  lemma TryAllHead(us: seq<Upstream>, order: seq<nat>, env: nat -> Attempt, vs: seq<Upstream>)
    requires order != [] && InRange(order, |us|) && vs == us[order[0] := AfterTry(us[order[0]], env(order[0]))]
    ensures TryAll(us, order, env)
         == Begun(OutcomeOf(us[order[0]], env(order[0])), order[0], vs, TryAll(vs, order[1..], env))
  {
  }

  lemma BegunThenJoined(o: Outcome, i: nat, vs: seq<Upstream>, t: Trial, r: Trial)
    ensures Begun(o, i, vs, Joined(t, r)) == Joined(Begun(o, i, vs, t), r)
  {
    assert [i] + (t.sent + r.sent) == ([i] + t.sent) + r.sent;
  }

  lemma {:induction false} TryAllSplit(us: seq<Upstream>, first: seq<nat>, second: seq<nat>, env: nat -> Attempt)
    requires InRange(first, |us|) && InRange(second, |us|)
    ensures InRange(first + second, |us|)
    ensures
      var t := TryAll(us, first, env);
      TryAll(us, first + second, env) == Joined(t, TryAll(t.upstreams, second, env))
    decreases |first|
  {
    if first == [] {
      assert first + second == second;
    } else {
      var i := first[0];
      var vs := us[i := AfterTry(us[i], env(i))];
      var t := TryAll(vs, first[1..], env);
      assert (first + second)[1..] == first[1..] + second;
      TryAllSplit(vs, first[1..], second, env);
      TryAllHead(us, first, env, vs);
      TryAllHead(us, first + second, env, vs);
      BegunThenJoined(OutcomeOf(us[i], env(i)), i, vs, t, TryAll(t.upstreams, second, env));
    }
  }

  lemma PreferredFirstRearranges(m: seq<nat>, p: nat)
    requires p < |m|
    ensures |PreferredFirst(m, p)| == |m| && multiset(PreferredFirst(m, p)) == multiset(m)
  {
    assert m == m[..p] + [m[p]] + m[p + 1..];
  }

  lemma PreferredFirstAt(m: seq<nat>, p: nat, k: nat)
    requires p < |m| && 0 < k < |m|
    ensures |PreferredFirst(m, p)| == |m| && PreferredFirst(m, p)[k] == if k <= p then m[k - 1] else m[k]
  {
  }

  /** The attempt order is a rearrangement of the candidates with the preferred one first and
      the others in their old order. */
  lemma PreferredFirstIs(m: seq<nat>, p: nat)
    requires p < |m| && forall j, k :: 0 <= j < k < |m| ==> m[j] < m[k]
    ensures
      var order := PreferredFirst(m, p);
      && |order| == |m| && order[0] == m[p]
      && multiset(order) == multiset(m)
      && (forall j, k :: 0 < j < k < |order| ==> order[j] < order[k])
      && (forall k :: 0 < k < |order| ==> order[k] != m[p])
  {
    var order := PreferredFirst(m, p);
    PreferredFirstRearranges(m, p);
    forall k | 0 < k < |order| ensures order[k] == (if k <= p then m[k - 1] else m[k]) {
      PreferredFirstAt(m, p, k);
    }
  }

  lemma SameElements(order: seq<nat>, m: seq<nat>)
    requires multiset(order) == multiset(m)
    ensures forall i :: i in order <==> i in m
  {
    forall i ensures i in order <==> i in m {
      assert i in order <==> i in multiset(order);
      assert i in m <==> i in multiset(m);
    }
  }

  /** The order lists the usable upstreams of the tier, each once. */
  ghost predicate ListsTier(us: seq<Upstream>, role: Role, order: seq<nat>) {
    && (forall k :: 0 <= k < |order| ==> order[k] < |us| && us[order[k]].role == role && Usable(us[order[k]]))
    && (forall i :: 0 <= i < |us| && us[i].role == role && Usable(us[i]) ==> i in order)
    && (forall j, k :: 0 <= j < k < |order| ==> order[j] != order[k])
  }

  lemma RearrangedListsTier(us: seq<Upstream>, role: Role, m: seq<nat>, order: seq<nat>)
    requires ListsTier(us, role, m) && multiset(order) == multiset(m)
    requires forall j, k :: 0 <= j < k < |order| ==> order[j] != order[k]
    ensures ListsTier(us, role, order)
  {
    SameElements(order, m);
    forall k | 0 <= k < |order| ensures order[k] < |us| && us[order[k]].role == role && Usable(us[order[k]]) {
      assert order[k] in m;
    }
  }

  lemma PreferredFirstLists(us: seq<Upstream>, role: Role, p: nat)
    requires p < |Members(us, role)|
    ensures ListsTier(us, role, PreferredFirst(Members(us, role), p))
  {
    MembersAre(us, role, |us|);
    PreferredFirstIs(Members(us, role), p);
    RearrangedListsTier(us, role, Members(us, role), PreferredFirst(Members(us, role), p));
  }

  lemma OrderIsOfTier(us: seq<Upstream>, role: Role, s: Strategy, counter: nat, draw: nat)
    ensures ListsTier(us, role, TierOrder(us, role, s, counter, draw).0)
  {
    var m := Members(us, role);
    if m == [] {
      MembersAre(us, role, |us|);
    } else {
      PreferredFirstLists(us, role, Select(Latencies(us, m), s, counter, draw).0);
    }
  }

  ghost predicate NoRepeats(tiers: seq<Role>) {
    forall j, k :: 0 <= j < k < |tiers| ==> tiers[j] != tiers[k]
  }

  /** The loop over tiers does what trying the whole plan does: an attempt never changes what a
      later tier looks like. */
  lemma {:induction false} TiersFollowPlan(us: seq<Upstream>, tiers: seq<Role>, s: Strategy, counter: nat,
                                           draws: Role -> nat, env: nat -> Attempt)
    requires NoRepeats(tiers)
    ensures
      var f, t := ForwardTiers(us, tiers, s, counter, draws, env),
                  TryAll(us, Plan(us, tiers, s, counter, draws), env);
      f.upstreams == t.upstreams && f.answer == t.answer && f.sent == t.sent
    decreases |tiers|
  {
    if tiers != [] {
      var (order, c) := TierOrder(us, tiers[0], s, counter, draws(tiers[0]));
      var rest := Plan(us, tiers[1..], s, c, draws);
      TryAllSplit(us, order, rest, env);
      if order == [] {
        assert order + rest == rest;
        TiersFollowPlan(us, tiers[1..], s, c, draws, env);
      } else {
        var t := TryAll(us, order, env);
        if t.answer == None {
          TryAllFrame(us, order, env);
          OrderIsOfTier(us, tiers[0], s, counter, draws(tiers[0]));
          assert SameIn(us, t.upstreams, tiers[1..]);
          PlanSame(us, t.upstreams, tiers[1..], s, c, draws);
          TiersFollowPlan(t.upstreams, tiers[1..], s, c, draws, env);
        }
      }
    }
  }

  // ---------- what trying a list of distinct upstreams does ----------

  /** The upstreams of the list that have a token when they are asked. */
  function WithToken(us: seq<Upstream>, order: seq<nat>, env: nat -> Attempt): seq<nat>
    requires InRange(order, |us|)
  {
    if order == [] then []
    else
      (if HasToken(us[order[0]], env(order[0])) then [order[0]] else []) + WithToken(us, order[1..], env)
  }

  /** How many of the list are used up by the first answer; all of them if there is none. */
  function UpToAnswer(asked: seq<nat>, env: nat -> Attempt): (k: nat)
    ensures k <= |asked|
    ensures forall j :: 0 <= j < k - 1 ==> !env(asked[j]).reply.Answer?
    ensures k < |asked| ==> k > 0 && env(asked[k - 1]).reply.Answer?
  {
    if asked == [] then 0
    else if env(asked[0]).reply.Answer? then 1
    else 1 + UpToAnswer(asked[1..], env)
  }

  lemma {:induction false} WithTokenSame(us: seq<Upstream>, vs: seq<Upstream>, order: seq<nat>, env: nat -> Attempt)
    requires InRange(order, |us|) && |us| == |vs|
    requires forall k :: 0 <= k < |order| ==> us[order[k]] == vs[order[k]]
    ensures WithToken(us, order, env) == WithToken(vs, order, env)
  {
    if order != [] {
      assert us[order[0]] == vs[order[0]];
      WithTokenSame(us, vs, order[1..], env);
    }
  }

  /** The answer that ends a list of asked upstreams, if there is one. */
  function FinalAnswer(asked: seq<nat>, env: nat -> Attempt): Option<Response> {
    var k := UpToAnswer(asked, env);
    if k > 0 && env(asked[k - 1]).reply.Answer? then Some(env(asked[k - 1]).reply.resp) else None
  }

  lemma UpToAnswerCons(i: nat, rest: seq<nat>, env: nat -> Attempt)
    ensures
      var asked := [i] + rest;
      && asked[..UpToAnswer(asked, env)]
           == (if env(i).reply.Answer? then [i] else [i] + rest[..UpToAnswer(rest, env)])
      && FinalAnswer(asked, env)
           == (if env(i).reply.Answer? then Some(env(i).reply.resp) else FinalAnswer(rest, env))
  {
    assert ([i] + rest)[1..] == rest;
    var k := UpToAnswer(rest, env);
    if !env(i).reply.Answer? && k > 0 {
      assert ([i] + rest)[k] == rest[k - 1];
    }
  }

  /** Requests go, in order, to exactly those upstreams of the list that have a token, up to and
      including the first that answers; that answer is the result. */
  lemma {:induction false} TryAllSends(us: seq<Upstream>, order: seq<nat>, env: nat -> Attempt)
    requires InRange(order, |us|)
    requires forall j, k :: 0 <= j < k < |order| ==> order[j] != order[k]
    ensures
      var t, asked := TryAll(us, order, env), WithToken(us, order, env);
      && t.sent == asked[..UpToAnswer(asked, env)]
      && t.answer == FinalAnswer(asked, env)
    decreases |order|
  {
    if order != [] {
      var i := order[0];
      var vs := us[i := AfterTry(us[i], env(i))];
      TryAllSends(vs, order[1..], env);
      WithTokenSame(us, vs, order[1..], env);
      UpToAnswerCons(i, WithToken(us, order[1..], env), env);
      assert [] + WithToken(us, order[1..], env) == WithToken(us, order[1..], env);
    }
  }

  // ---------- the main result ----------

  function TierRank(role: Role): nat {
    match role case Primary => 0 case Secondary => 1 case Fallback => 2
  }

  /** The plan lists exactly the usable upstreams of the tiers, each once, tier by tier. */
  ghost predicate ListsTiers(us: seq<Upstream>, tiers: seq<Role>, plan: seq<nat>) {
    && (forall k :: 0 <= k < |plan| ==> plan[k] < |us| && us[plan[k]].role in tiers && Usable(us[plan[k]]))
    && (forall i :: 0 <= i < |us| && us[i].role in tiers && Usable(us[i]) ==> i in plan)
    && (forall j, k :: 0 <= j < k < |plan| ==>
          plan[j] != plan[k] && TierRank(us[plan[j]].role) <= TierRank(us[plan[k]].role))
  }

  ghost predicate Ranked(tiers: seq<Role>) {
    forall j, k :: 0 <= j < k < |tiers| ==> TierRank(tiers[j]) < TierRank(tiers[k])
  }

  lemma RestIsLower(tiers: seq<Role>, role: Role)
    requires Ranked(tiers) && tiers != [] && role in tiers[1..]
    ensures TierRank(tiers[0]) < TierRank(role)
  {
    var t :| 0 <= t < |tiers[1..]| && tiers[1..][t] == role;
    assert TierRank(tiers[0]) < TierRank(tiers[t + 1]);
  }

  lemma TierThenRest(us: seq<Upstream>, tiers: seq<Role>, order: seq<nat>, rest: seq<nat>)
    requires tiers != [] && Ranked(tiers)
    requires ListsTier(us, tiers[0], order) && ListsTiers(us, tiers[1..], rest)
    ensures ListsTiers(us, tiers, order + rest)
  {
    var plan := order + rest;
    forall k | 0 <= k < |plan| ensures plan[k] < |us| && us[plan[k]].role in tiers && Usable(us[plan[k]]) {
      if k >= |order| { assert plan[k] == rest[k - |order|]; }
    }
    forall j, k | 0 <= j < k < |plan|
      ensures plan[j] != plan[k] && TierRank(us[plan[j]].role) <= TierRank(us[plan[k]].role)
    {
      if j >= |order| {
        assert plan[j] == rest[j - |order|] && plan[k] == rest[k - |order|];
      } else if k >= |order| {
        assert plan[k] == rest[k - |order|];
        RestIsLower(tiers, us[plan[k]].role);
      }
    }
  }

  lemma {:induction false} PlanIsExact(us: seq<Upstream>, tiers: seq<Role>, s: Strategy, counter: nat, draws: Role -> nat)
    requires Ranked(tiers)
    ensures ListsTiers(us, tiers, Plan(us, tiers, s, counter, draws))
    decreases |tiers|
  {
    if tiers != [] {
      var (order, c) := TierOrder(us, tiers[0], s, counter, draws(tiers[0]));
      OrderIsOfTier(us, tiers[0], s, counter, draws(tiers[0]));
      PlanIsExact(us, tiers[1..], s, c, draws);
      TierThenRest(us, tiers, order, Plan(us, tiers[1..], s, c, draws));
    }
  }

  /** Within a tier, all but the first are in configuration order. */
  ghost predicate ConfiguredOrder(us: seq<Upstream>, plan: seq<nat>) {
    && InRange(plan, |us|)
    && forall i, j, k :: 0 <= i < j < k < |plan| && us[plan[i]].role == us[plan[k]].role ==> plan[j] < plan[k]
  }

  lemma OrderIsConfigured(us: seq<Upstream>, role: Role, s: Strategy, counter: nat, draw: nat)
    ensures
      var order := TierOrder(us, role, s, counter, draw).0;
      forall j, k :: 0 < j < k < |order| ==> order[j] < order[k]
  {
    var m := Members(us, role);
    if m != [] {
      MembersAre(us, role, |us|);
      PreferredFirstIs(m, Select(Latencies(us, m), s, counter, draw).0);
    }
  }

  lemma ConfiguredThenRest(us: seq<Upstream>, tiers: seq<Role>, order: seq<nat>, rest: seq<nat>)
    requires tiers != [] && Ranked(tiers)
    requires ListsTier(us, tiers[0], order) && ListsTiers(us, tiers[1..], rest)
    requires (forall j, k :: 0 < j < k < |order| ==> order[j] < order[k]) && ConfiguredOrder(us, rest)
    ensures ConfiguredOrder(us, order + rest)
  {
    var plan := order + rest;
    assert forall k :: |order| <= k < |plan| ==> plan[k] == rest[k - |order|];
    forall i, j, k | 0 <= i < j < k < |plan| && us[plan[i]].role == us[plan[k]].role ensures plan[j] < plan[k] {
      if k >= |order| {
        RestIsLower(tiers, us[plan[k]].role);
        assert i >= |order|;
      }
    }
  }

  /** The plan tries the preferred upstream of each tier first and the others in configuration order. */
  lemma {:induction false} PlanIsConfigured(us: seq<Upstream>, tiers: seq<Role>, s: Strategy, counter: nat, draws: Role -> nat)
    requires Ranked(tiers)
    ensures ConfiguredOrder(us, Plan(us, tiers, s, counter, draws))
    decreases |tiers|
  {
    if tiers != [] {
      var (order, c) := TierOrder(us, tiers[0], s, counter, draws(tiers[0]));
      OrderIsOfTier(us, tiers[0], s, counter, draws(tiers[0]));
      OrderIsConfigured(us, tiers[0], s, counter, draws(tiers[0]));
      PlanIsExact(us, tiers[1..], s, c, draws);
      PlanIsConfigured(us, tiers[1..], s, c, draws);
      ConfiguredThenRest(us, tiers, order, Plan(us, tiers[1..], s, c, draws));
    }
  }

  lemma {:induction false} AnyTriedIff(us: seq<Upstream>, tiers: seq<Role>, s: Strategy, counter: nat,
                                       draws: Role -> nat, env: nat -> Attempt)
    requires NoRepeats(tiers)
    ensures ForwardTiers(us, tiers, s, counter, draws, env).anyTried
       <==> exists i :: 0 <= i < |us| && us[i].role in tiers && Usable(us[i])
    decreases |tiers|
  {
    if tiers != [] {
      var (order, c) := TierOrder(us, tiers[0], s, counter, draws(tiers[0]));
      OrderIsOfTier(us, tiers[0], s, counter, draws(tiers[0]));
      if order == [] {
        AnyTriedIff(us, tiers[1..], s, c, draws, env);
        assert forall i :: 0 <= i < |us| && us[i].role == tiers[0] ==> !Usable(us[i]);
        assert forall r :: r in tiers <==> r == tiers[0] || r in tiers[1..];
      } else {
        assert us[order[0]].role in tiers && Usable(us[order[0]]);
      }
    }
  }

  /** What forward_request does, for every state of the upstreams and every behaviour of the
      network.  The candidates are all usable upstreams, each once, primary before secondary
      before fallback.  Requests go, in that order, to exactly the candidates that have a token,
      up to and including the first that answers.  The result is that answer; without one, it is
      "no healthy upstreams" exactly when there is no candidate, "all rate limited" exactly when
      there are candidates and none has a token, and "all failed" otherwise. */
  lemma FailoverIsExact(us: seq<Upstream>, s: Strategy, counter: nat, draws: Role -> nat, env: nat -> Attempt)
    ensures
      var f, plan := ForwardTiers(us, TIERS, s, counter, draws, env), Plan(us, TIERS, s, counter, draws);
      var asked := WithToken(us, plan, env);
      && (forall i :: 0 <= i < |us| ==> (i in plan <==> Usable(us[i])))
      && (forall a, b :: 0 <= a < b < |plan| ==>
            plan[a] != plan[b] && TierRank(us[plan[a]].role) <= TierRank(us[plan[b]].role))
      && f.sent == asked[..UpToAnswer(asked, env)]
      && ResultOf(f) ==
           if FinalAnswer(asked, env).Some? then Ok(FinalAnswer(asked, env).value)
           else if forall i :: 0 <= i < |us| ==> !Usable(us[i]) then Err(NoHealthyUpstreams)
           else if asked == [] then Err(AllRateLimited)
           else Err(AllFailed)
  {
    var plan := Plan(us, TIERS, s, counter, draws);
    PlanListsUsable(us, s, counter, draws);
    TiersFollowPlan(us, TIERS, s, counter, draws, env);
    TryAllSends(us, plan, env);
    TriedIfUsable(us, s, counter, draws, env);
    NothingSentIff(WithToken(us, plan, env), env);
  }

  lemma PlanListsUsable(us: seq<Upstream>, s: Strategy, counter: nat, draws: Role -> nat)
    ensures
      var plan := Plan(us, TIERS, s, counter, draws);
      && (forall i :: 0 <= i < |us| ==> (i in plan <==> Usable(us[i])))
      && (forall a, b :: 0 <= a < b < |plan| ==>
            plan[a] != plan[b] && TierRank(us[plan[a]].role) <= TierRank(us[plan[b]].role))
  {
    forall i | 0 <= i < |us| ensures us[i].role in TIERS {
      AllTiers(us[i].role);
    }
    PlanIsExact(us, TIERS, s, counter, draws);
  }

  lemma TriedIfUsable(us: seq<Upstream>, s: Strategy, counter: nat, draws: Role -> nat, env: nat -> Attempt)
    ensures ForwardTiers(us, TIERS, s, counter, draws, env).anyTried <==> exists i :: 0 <= i < |us| && Usable(us[i])
  {
    AnyTriedIff(us, TIERS, s, counter, draws, env);
    forall i | 0 <= i < |us| ensures us[i].role in TIERS {
      AllTiers(us[i].role);
    }
  }

  lemma AllTiers(role: Role)
    ensures role in TIERS
  {
    assert role == TIERS[TierRank(role)];
  }

  lemma NothingSentIff(asked: seq<nat>, env: nat -> Attempt)
    ensures asked[..UpToAnswer(asked, env)] == [] <==> asked == []
  {
  }

  lemma OutOfReach(us: seq<Upstream>, plan: seq<nat>, env: nat -> Attempt, i: nat)
    requires InRange(plan, |us|) && i < |us|
    requires forall k :: 0 <= k < |plan| ==> Usable(us[plan[k]])
    requires forall j, k :: 0 <= j < k < |plan| ==> TierRank(us[plan[j]].role) <= TierRank(us[plan[k]].role)
    requires
      var t := TryAll(us, plan, env);
      !Usable(us[i])
      || (t.answer.Some? && t.sent != [] && InRange(t.sent, |us|)
          && TierRank(us[t.sent[|t.sent| - 1]].role) < TierRank(us[i].role))
    ensures TryAll(us, plan, env).upstreams[i] == us[i]
  {
    if !Usable(us[i]) {
      TryAllFrame(us, plan, env);
    } else {
      var k := StopsAtLast(us, plan, env);
      forall j | 0 <= j < k ensures plan[..k][j] != i {
        assert j == k - 1 || TierRank(us[plan[j]].role) <= TierRank(us[plan[k - 1]].role);
      }
      TryAllFrame(us, plan[..k], env);
    }
  }

  /** After an answer from a tier, every upstream of a lower tier is as it was, and so is every
      upstream that was not usable. */
  lemma LowerTiersUntouched(us: seq<Upstream>, tiers: seq<Role>, s: Strategy, counter: nat,
                            draws: Role -> nat, env: nat -> Attempt, i: nat)
    requires i < |us|
    requires Ranked(tiers)
    requires
      var f := ForwardTiers(us, tiers, s, counter, draws, env);
      !Usable(us[i])
      || (f.answer.Some? && f.sent != [] && InRange(f.sent, |us|)
          && TierRank(us[f.sent[|f.sent| - 1]].role) < TierRank(us[i].role))
    ensures ForwardTiers(us, tiers, s, counter, draws, env).upstreams[i] == us[i]
  {
    TiersFollowPlan(us, tiers, s, counter, draws, env);
    PlanIsExact(us, tiers, s, counter, draws);
    OutOfReach(us, Plan(us, tiers, s, counter, draws), env, i);
  }

  /** Once an upstream answers, the rest of the list has no influence. */
  lemma {:induction false} StopsAtLast(us: seq<Upstream>, order: seq<nat>, env: nat -> Attempt) returns (k: nat)
    requires InRange(order, |us|)
    ensures k <= |order| && InRange(order[..k], |us|)
    ensures
      var t := TryAll(us, order, env);
      t.answer.Some? ==>
        && k > 0 && t == TryAll(us, order[..k], env)
        && t.sent != [] && t.sent[|t.sent| - 1] == order[k - 1]
    decreases |order|
  {
    if order == [] {
      k := 0;
    } else {
      var i := order[0];
      if OutcomeOf(us[i], env(i)).Won? {
        k := 1;
      } else {
        var r := StopsAtLast(us[i := AfterTry(us[i], env(i))], order[1..], env);
        k := r + 1;
        assert order[..k][1..] == order[1..][..r];
      }
    }
  }

  // ---------- attempts as runs of the health bookkeeping ----------

  predicate IsHttpError(r: Reply) {
    r == Unreachable || (r.HttpStatus? && r.clientOrServerError)
  }

  /** What an attempt records about the health of its upstream, in order. */
  function Recorded(u: Upstream, a: Attempt): seq<Event> {
    if !HasToken(u, a) then []
    else
      (if IsHttpError(a.reply) then [Event(HttpError, a.doneAt)] else [])
      + [Event(if a.reply.Answer? then Success else Failure, a.doneAt)]
  }

  lemma AttemptIsRun(u: Upstream, a: Attempt)
    ensures AfterTry(u, a).health == Run(u.health, Recorded(u, a), u.retry)
    ensures AfterTry(u, a).retry == u.retry && AfterTry(u, a).role == u.role
  {
    if HasToken(u, a) {
      var last := Event(if a.reply.Answer? then Success else Failure, a.doneAt);
      assert Run(u.health, [], u.retry) == u.health;
      if IsHttpError(a.reply) {
        var error := Event(HttpError, a.doneAt);
        assert [error, last][..1] == [error] && [error][..0] == [];
      } else {
        assert [last][..0] == [] && [] + [last] == [last];
      }
    }
  }

  // ---------- what a request does to each upstream ----------

  predicate Answers(u: Upstream, a: Attempt) {
    HasToken(u, a) && a.reply.Answer?
  }

  /** The part of a list up to and including the first upstream that answers. */
  function Reached(us: seq<Upstream>, order: seq<nat>, env: nat -> Attempt): seq<nat>
    requires InRange(order, |us|)
  {
    if order == [] then []
    else if Answers(us[order[0]], env(order[0])) then [order[0]]
    else [order[0]] + Reached(us, order[1..], env)
  }

  lemma {:induction false} ReachedSame(us: seq<Upstream>, vs: seq<Upstream>, order: seq<nat>, env: nat -> Attempt)
    requires InRange(order, |us|) && |us| == |vs|
    requires forall k :: 0 <= k < |order| ==> us[order[k]] == vs[order[k]]
    ensures Reached(us, order, env) == Reached(vs, order, env)
    ensures forall i :: i in Reached(us, order, env) ==> i in order
  {
    if order != [] {
      assert us[order[0]] == vs[order[0]];
      ReachedSame(us, vs, order[1..], env);
    }
  }

  lemma {:induction false} ReachedAreTried(us: seq<Upstream>, order: seq<nat>, env: nat -> Attempt, i: nat)
    requires InRange(order, |us|) && i < |us|
    requires forall j, k :: 0 <= j < k < |order| ==> order[j] != order[k]
    ensures TryAll(us, order, env).upstreams[i]
         == if i in Reached(us, order, env) then AfterTry(us[i], env(i)) else us[i]
    decreases |order|
  {
    if order != [] {
      var vs := us[order[0] := AfterTry(us[order[0]], env(order[0]))];
      ReachedSame(us, vs, order[1..], env);
      ReachedAreTried(vs, order[1..], env, i);
      TryAllFrame(vs, order[1..], env);
    }
  }

  /** What forward_request does to the upstreams: each candidate up to the first that answers goes
      through exactly one attempt, and nothing else changes. */
  lemma ForwardTriesReached(us: seq<Upstream>, s: Strategy, counter: nat, draws: Role -> nat,
                            env: nat -> Attempt, i: nat)
    requires i < |us|
    ensures ForwardTiers(us, TIERS, s, counter, draws, env).upstreams[i]
         == if i in Reached(us, Plan(us, TIERS, s, counter, draws), env) then AfterTry(us[i], env(i)) else us[i]
  {
    PlanIsExact(us, TIERS, s, counter, draws);
    TiersFollowPlan(us, TIERS, s, counter, draws, env);
    ReachedAreTried(us, Plan(us, TIERS, s, counter, draws), env, i);
  }

  /** What one attempt does to its upstream.  The bucket is refilled, and a token taken if there is a
      whole one.  The latency takes in one sample if a response came back, whatever it was.  The health
      records an HTTP error, if it was one, and then the success or the failure. */
  lemma AttemptIs(u: Upstream, a: Attempt)
    ensures
      var v := AfterTry(u, a);
      && v.role == u.role && v.retry == u.retry
      && v.bucket == AfterAcquire(u.bucket, a.askedAt)
      && v.latency == (if HasToken(u, a) && !a.reply.Unreachable? then Latency.Update(u.latency, a.reply.elapsedUs) else u.latency)
      && v.health == Run(u.health, Recorded(u, a), u.retry)
  {
    AttemptIsRun(u, a);
  }

  ghost predicate AllAt(events: seq<Event>, t: Time) {
    forall k :: 0 <= k < |events| ==> events[k].now == t
  }

  lemma TriedIsRun(u: Upstream, v: Upstream, a: Attempt) returns (events: seq<Event>)
    requires v == u || v == AfterTry(u, a)
    ensures v.health == Run(u.health, events, u.retry) && AllAt(events, a.doneAt)
  {
    AttemptIsRun(u, a);
    events := if v == u then [] else Recorded(u, a);
  }

  /** Forwarding a request is, for every upstream, a run of its health bookkeeping at the time its
      attempt ends. */
  lemma ForwardIsRun(us: seq<Upstream>, s: Strategy, counter: nat, draws: Role -> nat, env: nat -> Attempt, i: nat)
      returns (events: seq<Event>)
    requires i < |us|
    ensures ForwardTiers(us, TIERS, s, counter, draws, env).upstreams[i].health == Run(us[i].health, events, us[i].retry)
    ensures AllAt(events, env(i).doneAt)
  {
    ForwardTriesReached(us, s, counter, draws, env, i);
    var v := ForwardTiers(us, TIERS, s, counter, draws, env).upstreams[i];
    events := TriedIsRun(us[i], v, env(i));
  }

  /** So the guarantees about runs reach through forward_request: an upstream that came about by a
      run from its creation still has after a request, and at every later time, fewer than six
      failures in a row and fewer than five errors within the window of its full history while it
      is enabled, and is not healthy while it is disabled. */
  lemma ForwardKeepsSafe(us: seq<Upstream>, s: Strategy, counter: nat, draws: Role -> nat, env: nat -> Attempt,
                         i: nat, start: Time, before: seq<Event>, later: Time) returns (events: seq<Event>)
    requires i < |us| && InOrder(start, before) && us[i].health == Run(NewHealth(start), before, us[i].retry)
    requires Clock(start, before) <= env(i).doneAt <= later
    ensures InOrder(start, events)
    ensures ForwardTiers(us, TIERS, s, counter, draws, env).upstreams[i].health == Run(NewHealth(start), events, us[i].retry)
    ensures
      var h, full := Run(NewHealth(start), events, us[i].retry), ReferenceRun(NewHealth(start), events, us[i].retry);
      && (!h.disabled ==> h.failures < MAX_CONSECUTIVE_FAILURES && |Recent(full.errors, later)| < MAX_HTTP_ERRORS)
      && (h.disabled ==> !IsHealthy(h) && !h.healthy)
  {
    var more := ForwardIsRun(us, s, counter, draws, env, i);
    events := before + more;
    RunAppend(NewHealth(start), before, more, us[i].retry);
    LaterInOrder(start, before, more, env(i).doneAt);
    EnabledIsSafe(start, events, us[i].retry, later);
  }

  lemma LaterInOrder(start: Time, before: seq<Event>, more: seq<Event>, at: Time)
    requires InOrder(start, before) && Clock(start, before) <= at && AllAt(more, at)
    ensures InOrder(start, before + more) && Clock(start, before + more) <= at
  {
    assert forall k :: 0 <= k < |before| ==> before[k].now <= at;
  }

  // ---------- retrying a disabled upstream ----------

  /** After an attempt with a token, the upstream, if it is disabled, is left alone for the
      configured interval exactly when the attempt was answered, or its failure backs off long
      enough, or the upstream was enabled and no fifth HTTP error disabled it. */
  lemma AttemptHonoursRetryIff(u: Upstream, a: Attempt)
    requires HasToken(u, a)
    ensures HonoursRetry(AfterTry(u, a).health, a.doneAt, u.retry)
       <==> a.reply.Answer? || BacksOffLong(u.health.failures, u.retry)
            || (!u.health.disabled && !(IsHttpError(a.reply) && OneErrorShort(u.health, a.doneAt)))
  {
    FailureHonoursRetryIff(u.health, IsHttpError(a.reply), u.retry, a.doneAt);
  }

  function TryTimes(u: Upstream, a: Attempt, n: nat): Upstream {
    if n == 0 then u else AfterTry(TryTimes(u, a, n - 1), a)
  }

  function NewUpstream(role: Role, maxRps: nat, retry: real): Upstream {
    Upstream(role, NewHealth(0.0), NewBucket(maxRps, 0.0), Latency.UNMEASURED, retry)
  }

  lemma TokenAtOnce(b: Bucket)
    requires b.lastRefill == 0.0 && 1.0 <= b.tokens <= b.maxTokens
    ensures Grants(b, 0.0) && AfterAcquire(b, 0.0) == b.(tokens := b.tokens - 1.0)
  {
    assert TimeGain(0.0, 0.0, b.refillRate) == 0.0;
  }

  lemma ErrorAtOnce(h: Health, n: nat, retry: real)
    requires n < MAX_HTTP_ERRORS
    requires h.failures == n && h.errors == seq(n, i => 0.0) && !h.disabled && h.healthy
    ensures
      var g := RecordFailure(RecordHttpError(h, retry, 0.0), retry, 0.0);
      && g.failures == n + 1 && g.errors == seq(n + 1, i => 0.0) && g.nextCheck == Backoff(n + 1)
      && (if n + 1 == MAX_HTTP_ERRORS then g.disabled else !g.disabled && g.healthy)
  {
    NowIsRecent(n + 1, 0.0);
    SmallCount(n + 1);
    assert seq(n, i => 0.0) + [0.0] == seq(n + 1, i => 0.0);
    assert RecordHttpError(h, retry, 0.0).errors == seq(n + 1, i => 0.0);
  }

  lemma UnreachableOnceMore(u: Upstream, n: nat)
    requires n < MAX_HTTP_ERRORS && u.bucket.lastRefill == 0.0 && 1.0 <= u.bucket.tokens <= u.bucket.maxTokens
    requires u.health.failures == n && u.health.errors == seq(n, i => 0.0) && !u.health.disabled && u.health.healthy
    ensures
      var v, errors := AfterTry(u, Attempt(0.0, 0.0, Unreachable)), n + 1;
      && HasToken(u, Attempt(0.0, 0.0, Unreachable))
      && v.bucket == u.bucket.(tokens := u.bucket.tokens - 1.0)
      && v.health.failures == errors && v.health.errors == seq(errors, i => 0.0)
      && v.health.nextCheck == Backoff(errors)
      && (if errors == MAX_HTTP_ERRORS then v.health.disabled else !v.health.disabled && v.health.healthy)
  {
    TokenAtOnce(u.bucket);
    ErrorAtOnce(u.health, n, u.retry);
  }

  lemma {:induction false} UnreachableTimes(role: Role, maxRps: nat, retry: real, n: nat)
    requires n <= MAX_HTTP_ERRORS <= maxRps
    ensures
      var u, a := NewUpstream(role, maxRps, retry), Attempt(0.0, 0.0, Unreachable);
      var v := TryTimes(u, a, n);
      && v.bucket == u.bucket.(tokens := (maxRps - n) as real)
      && v.health.failures == n && v.health.errors == seq(n, i => 0.0)
      && (n > 0 ==> v.health.nextCheck == Backoff(n))
      && (if n == MAX_HTTP_ERRORS then v.health.disabled else !v.health.disabled && v.health.healthy)
  {
    if n == 0 {
      assert seq(0, i => 0.0) == [];
    } else {
      UnreachableTimes(role, maxRps, retry, n - 1);
      UnreachableOnceMore(TryTimes(NewUpstream(role, maxRps, retry), Attempt(0.0, 0.0, Unreachable), n - 1), n - 1);
    }
  }

  lemma OneTryMore(u: Upstream, h: Health, before: seq<Event>, a: Attempt)
    requires u.health == Run(h, before, u.retry) && AllAt(before, a.doneAt)
    ensures AfterTry(u, a).health == Run(h, before + Recorded(u, a), u.retry)
    ensures AllAt(before + Recorded(u, a), a.doneAt)
  {
    AttemptIsRun(u, a);
    RunAppend(h, before, Recorded(u, a), u.retry);
  }

  lemma {:induction false} TriesAreRun(u: Upstream, a: Attempt, n: nat) returns (events: seq<Event>)
    ensures TryTimes(u, a, n).retry == u.retry && AllAt(events, a.doneAt)
    ensures TryTimes(u, a, n).health == Run(u.health, events, u.retry)
  {
    if n == 0 {
      events := [];
    } else {
      var before := TriesAreRun(u, a, n - 1);
      var v := TryTimes(u, a, n - 1);
      OneTryMore(v, u.health, before, a);
      AttemptIsRun(v, a);
      events := before + Recorded(v, a);
    }
  }

  lemma UnreachableUpstreamIsRetriedEarly(role: Role, maxRps: nat, retry: real)
    requires maxRps >= MAX_HTTP_ERRORS && retry > 160.0
    ensures
      var h := TryTimes(NewUpstream(role, maxRps, retry), Attempt(0.0, 0.0, Unreachable), MAX_HTTP_ERRORS).health;
      h.disabled && h.nextCheck == 160.0 && !HonoursRetry(h, 0.0, retry)
  {
    UnreachableTimes(role, maxRps, retry, MAX_HTTP_ERRORS);
    BackoffDoubles(5);
    assert Pow2(4) == 16;
  }

  /** The interval is not always honoured, already by requests alone: a new upstream that cannot be
      reached stays usable for four requests, is disabled by the fifth, and is due again after 160
      seconds although its interval is longer.  This is a run from its creation. */
  lemma FiveErrorsAreRetriedEarly(role: Role, maxRps: nat, retry: real) returns (events: seq<Event>)
    requires maxRps >= MAX_HTTP_ERRORS && retry > 160.0
    ensures
      var u, a := NewUpstream(role, maxRps, retry), Attempt(0.0, 0.0, Unreachable);
      var h := TryTimes(u, a, MAX_HTTP_ERRORS).health;
      && (forall n :: 0 <= n < MAX_HTTP_ERRORS ==> Usable(TryTimes(u, a, n)) && HasToken(TryTimes(u, a, n), a))
      && h == Run(NewHealth(0.0), events, retry) && InOrder(0.0, events)
      && h.disabled && h.nextCheck == 160.0 && !HonoursRetry(h, 0.0, retry)
  {
    var u, a := NewUpstream(role, maxRps, retry), Attempt(0.0, 0.0, Unreachable);
    forall n | 0 <= n < MAX_HTTP_ERRORS ensures Usable(TryTimes(u, a, n)) && HasToken(TryTimes(u, a, n), a) {
      UnreachableTimes(role, maxRps, retry, n);
      UnreachableOnceMore(TryTimes(u, a, n), n);
    }
    UnreachableUpstreamIsRetriedEarly(role, maxRps, retry);
    events := TriesAreRun(u, a, MAX_HTTP_ERRORS);
  }

  // ---------- the upstream that the block tracker polls ----------

  /** The choice within the first tier that has a usable upstream (src/upstream/tracker.rs), and
      the round-robin counter afterwards.  The tracker has a counter and draws of its own. */
  function Best(us: seq<Upstream>, tiers: seq<Role>, s: Strategy, counter: nat, draws: Role -> nat)
    : (r: (Option<nat>, nat))
    decreases |tiers|
  {
    if tiers == [] then (None, counter)
    else
      var members := Members(us, tiers[0]);
      if members == [] then Best(us, tiers[1..], s, counter, draws)
      else
        var (p, c) := Select(Latencies(us, members), s, counter, draws(tiers[0]));
        (Some(members[p]), c)
  }

  /** The first tier that has a usable upstream. */
  function FirstTier(us: seq<Upstream>, tiers: seq<Role>): (role: Option<Role>)
    ensures role.Some? ==> Members(us, role.value) != []
  {
    if tiers == [] then None
    else if Members(us, tiers[0]) != [] then Some(tiers[0])
    else FirstTier(us, tiers[1..])
  }

  function Choice(us: seq<Upstream>, role: Role, s: Strategy, counter: nat, draw: nat): nat
    requires Members(us, role) != []
  {
    Members(us, role)[Select(Latencies(us, Members(us, role)), s, counter, draw).0]
  }

  lemma {:induction false} BestIsOfFirstTier(us: seq<Upstream>, tiers: seq<Role>, s: Strategy, counter: nat,
                                             draws: Role -> nat)
    ensures Best(us, tiers, s, counter, draws).0 ==
      match FirstTier(us, tiers)
      case None => None
      case Some(role) => Some(Choice(us, role, s, counter, draws(role)))
    decreases |tiers|
  {
    if tiers != [] && Members(us, tiers[0]) == [] {
      BestIsOfFirstTier(us, tiers[1..], s, counter, draws);
    }
  }

  lemma {:induction false} PlanStartsInFirstTier(us: seq<Upstream>, tiers: seq<Role>, s: Strategy, counter: nat,
                                                 draws: Role -> nat)
    ensures
      var plan := Plan(us, tiers, s, counter, draws);
      match FirstTier(us, tiers)
      case None => plan == []
      case Some(role) => plan != [] && plan[0] == Choice(us, role, s, counter, draws(role))
    decreases |tiers|
  {
    if tiers != [] && Members(us, tiers[0]) == [] {
      PlanStartsInFirstTier(us, tiers[1..], s, counter, draws);
      var rest := Plan(us, tiers[1..], s, counter, draws);
      assert [] + rest == rest;
    }
  }

  /** The tracker finds an upstream exactly when some upstream is usable.  What it finds is usable,
      and no usable upstream is of a higher tier. */
  lemma BestIsOfBestTier(us: seq<Upstream>, s: Strategy, counter: nat, draws: Role -> nat)
    ensures
      var best := Best(us, TIERS, s, counter, draws).0;
      && (best == None <==> forall i :: 0 <= i < |us| ==> !Usable(us[i]))
      && (best.Some? ==>
            && best.value < |us| && Usable(us[best.value])
            && forall i :: 0 <= i < |us| && Usable(us[i]) ==> TierRank(us[best.value].role) <= TierRank(us[i].role))
  {
    BestIsOfFirstTier(us, TIERS, s, counter, draws);
    PlanStartsInFirstTier(us, TIERS, s, counter, draws);
    PlanIsExact(us, TIERS, s, counter, draws);
    HeadOfPlanIsBest(us, Plan(us, TIERS, s, counter, draws));
  }

  lemma HeadOfPlanIsBest(us: seq<Upstream>, plan: seq<nat>)
    requires ListsTiers(us, TIERS, plan)
    ensures plan == [] <==> forall i :: 0 <= i < |us| ==> !Usable(us[i])
    ensures plan != [] ==>
      && plan[0] < |us| && Usable(us[plan[0]])
      && forall i :: 0 <= i < |us| && Usable(us[i]) ==> TierRank(us[plan[0]].role) <= TierRank(us[i].role)
  {
    assert plan != [] ==> Usable(us[plan[0]]);
    forall i | 0 <= i < |us| && Usable(us[i])
      ensures plan != [] && TierRank(us[plan[0]].role) <= TierRank(us[i].role)
    {
      AllTiers(us[i].role);
      var k :| 0 <= k < |plan| && plan[k] == i;
    }
  }

  /** Requests go only to upstreams that are enabled and healthy; so does the tracker. */
  lemma OthersGetNothing(us: seq<Upstream>, s: Strategy, counter: nat, draws: Role -> nat, env: nat -> Attempt, i: nat)
    requires i < |us| && (us[i].health.disabled || !us[i].health.healthy)
    ensures
      var f := ForwardTiers(us, TIERS, s, counter, draws, env);
      i !in f.sent && f.upstreams[i] == us[i] && Best(us, TIERS, s, counter, draws).0 != Some(i)
  {
    var plan := Plan(us, TIERS, s, counter, draws);
    PlanListsUsable(us, s, counter, draws);
    TiersFollowPlan(us, TIERS, s, counter, draws, env);
    TryAllFrame(us, plan, env);
    SentAreInOrder(us, plan, env);
    BestIsOfBestTier(us, s, counter, draws);
  }

  lemma {:induction false} SentAreInOrder(us: seq<Upstream>, order: seq<nat>, env: nat -> Attempt)
    requires InRange(order, |us|)
    ensures forall i :: i in TryAll(us, order, env).sent ==> i in order
    decreases |order|
  {
    if order != [] {
      SentAreInOrder(us[order[0] := AfterTry(us[order[0]], env(order[0]))], order[1..], env);
    }
  }

  /** After a due health check that does not pass, an upstream gets no request, and is not polled, until
      a health check passes, whatever happens to it meanwhile. */
  lemma FailedCheckKeepsAway(us: seq<Upstream>, s: Strategy, counter: nat, draws: Role -> nat, env: nat -> Attempt,
                             i: nat, start: Time, before: seq<Event>, check: Check, now: Time, more: seq<Event>)
    requires i < |us| && InOrder(start, before + [Event(HealthCheck(check), now)] + more)
    requires us[i].health == Run(NewHealth(start), before + [Event(HealthCheck(check), now)] + more, us[i].retry)
    requires !check.Passed? && IsDueForCheck(Run(NewHealth(start), before, us[i].retry), now)
    requires forall k :: 0 <= k < |more| ==> more[k].op != HealthCheck(Passed)
    ensures i !in ForwardTiers(us, TIERS, s, counter, draws, env).sent
    ensures Best(us, TIERS, s, counter, draws).0 != Some(i)
  {
    var h := Run(NewHealth(start), before, us[i].retry);
    RunOneMore(NewHealth(start), before, Event(HealthCheck(check), now), us[i].retry);
    FailingCheckReschedules(h, check, us[i].retry, now);
    StaysUnusable(start, before + [Event(HealthCheck(check), now)], more, us[i].retry);
    OthersGetNothing(us, s, counter, draws, env, i);
  }

  // ---------- round robin over requests ----------

  /** How many of the tiers, up to and including the given one if it is among them, have a choice. */
  function Turns(us: seq<Upstream>, tiers: seq<Role>, last: Option<Role>): nat {
    if tiers == [] then 0
    else
      (if |Members(us, tiers[0])| >= 2 then 1 else 0)
      + if last == Some(tiers[0]) then 0 else Turns(us, tiers[1..], last)
  }

  lemma OneTurn(us: seq<Upstream>, role: Role, s: Strategy, counter: nat, draw: nat)
    requires counter < COUNTER_LIMIT
    ensures
      var (order, c) := TierOrder(us, role, s, counter, draw);
      c == if s == RoundRobin && |Members(us, role)| >= 2 then (counter + 1) % COUNTER_LIMIT else counter
  {
  }

  lemma TrialAnswersFrom(us: seq<Upstream>, role: Role, s: Strategy, counter: nat, draw: nat, env: nat -> Attempt)
    ensures
      var t := TryAll(us, TierOrder(us, role, s, counter, draw).0, env);
      t.answer.Some? ==> t.sent != [] && t.sent[|t.sent| - 1] < |us| && us[t.sent[|t.sent| - 1]].role == role
  {
    var order := TierOrder(us, role, s, counter, draw).0;
    OrderIsOfTier(us, role, s, counter, draw);
    var k := StopsAtLast(us, order, env);
  }

  lemma {:induction false} TurnsSame(us: seq<Upstream>, vs: seq<Upstream>, tiers: seq<Role>, last: Option<Role>)
    requires SameIn(us, vs, tiers)
    ensures Turns(us, tiers, last) == Turns(vs, tiers, last)
  {
    if tiers != [] {
      MembersSame(us, vs, tiers[0], |us|);
      TurnsSame(us, vs, tiers[1..], last);
    }
  }

  /** The last upstream that was sent the request is of the given tier. */
  predicate LastSentIn(us: seq<Upstream>, sent: seq<nat>, role: Role) {
    sent != [] && sent[|sent| - 1] < |us| && us[sent[|sent| - 1]].role == role
  }

  lemma ForwardHead(us: seq<Upstream>, tiers: seq<Role>, s: Strategy, counter: nat, draws: Role -> nat, env: nat -> Attempt)
    requires tiers != []
    ensures
      var (order, c) := TierOrder(us, tiers[0], s, counter, draws(tiers[0]));
      var f, t := ForwardTiers(us, tiers, s, counter, draws, env), TryAll(us, order, env);
      if t.answer.Some? then f.answer == t.answer && f.sent == t.sent && f.counter == c
      else
        var r := ForwardTiers(t.upstreams, tiers[1..], s, c, draws, env);
        f.answer == r.answer && f.sent == t.sent + r.sent && f.counter == r.counter
  {
  }

  /** A request over the tiers that was answered from the last one given, if any, moved the counter on
      by one, if the strategy is round robin, for every tier it got to that has a choice. */
  ghost predicate TurnsTaken(us: seq<Upstream>, tiers: seq<Role>, s: Strategy, counter: nat, f: Forwarded, last: Option<Role>) {
    && (last.Some? <==> f.answer.Some?)
    && (last.Some? ==> last.value in tiers && LastSentIn(us, f.sent, last.value))
    && f.counter == if s == RoundRobin then (counter + Turns(us, tiers, last)) % COUNTER_LIMIT else counter
  }

  lemma TurnsAnswered(us: seq<Upstream>, tiers: seq<Role>, s: Strategy, counter: nat, f: Forwarded, c: nat)
    requires tiers != [] && counter < COUNTER_LIMIT
    requires f.answer.Some? && LastSentIn(us, f.sent, tiers[0]) && f.counter == c
    requires c == if s == RoundRobin && |Members(us, tiers[0])| >= 2 then (counter + 1) % COUNTER_LIMIT else counter
    ensures TurnsTaken(us, tiers, s, counter, f, Some(tiers[0]))
  {
  }

  lemma OneMoreTurn(counter: nat, turns: nat, limit: nat)
    requires counter < limit
    ensures ((counter + 1) % limit + turns) % limit == (counter + (1 + turns)) % limit
  {
    if counter + 1 == limit {
      OneCycleMore(turns, limit);
      DivisionIs(counter + 1, limit, 1, 0);
    } else {
      DivisionIs(counter + 1, limit, 0, counter + 1);
    }
  }

  lemma TurnsGoOn(us: seq<Upstream>, vs: seq<Upstream>, tiers: seq<Role>, s: Strategy, counter: nat, f: Forwarded,
                  c: nat, r: Forwarded, sent: seq<nat>, last: Option<Role>)
    requires tiers != [] && NoRepeats(tiers) && counter < COUNTER_LIMIT
    requires |us| == |vs| && (forall i :: 0 <= i < |us| ==> us[i].role == vs[i].role)
    requires Turns(us, tiers[1..], last) == Turns(vs, tiers[1..], last)
    requires f.answer == r.answer && f.sent == sent + r.sent && f.counter == r.counter
    requires c == if s == RoundRobin && |Members(us, tiers[0])| >= 2 then (counter + 1) % COUNTER_LIMIT else counter
    requires TurnsTaken(vs, tiers[1..], s, c, r, last)
    ensures TurnsTaken(us, tiers, s, counter, f, last)
  {
    OneMoreTurn(counter, Turns(vs, tiers[1..], last), COUNTER_LIMIT);
    if last.Some? {
      var k :| 0 <= k < |tiers[1..]| && tiers[1..][k] == last.value;
      assert tiers[k + 1] == last.value;
    }
  }

  /** In every run of the loop over the tiers the counter takes its turns. */
  lemma {:induction false} CounterTakesTurns(us: seq<Upstream>, tiers: seq<Role>, s: Strategy, counter: nat,
                                             draws: Role -> nat, env: nat -> Attempt) returns (last: Option<Role>)
    requires NoRepeats(tiers) && counter < COUNTER_LIMIT
    ensures TurnsTaken(us, tiers, s, counter, ForwardTiers(us, tiers, s, counter, draws, env), last)
    decreases |tiers|
  {
    last := None;
    if tiers != [] {
      var role, f := tiers[0], ForwardTiers(us, tiers, s, counter, draws, env);
      var (order, c) := TierOrder(us, role, s, counter, draws(role));
      var t := TryAll(us, order, env);
      OneTurn(us, role, s, counter, draws(role));
      ForwardHead(us, tiers, s, counter, draws, env);
      if t.answer.Some? {
        TrialAnswersFrom(us, role, s, counter, draws(role), env);
        last := Some(role);
        TurnsAnswered(us, tiers, s, counter, f, c);
      } else {
        last := CounterTakesTurns(t.upstreams, tiers[1..], s, c, draws, env);
        OrderIsOfTier(us, role, s, counter, draws(role));
        TrialLeavesLower(us, tiers, order, env);
        TurnsSame(us, t.upstreams, tiers[1..], last);
        TurnsGoOn(us, t.upstreams, tiers, s, counter, f, c,
                  ForwardTiers(t.upstreams, tiers[1..], s, c, draws, env), t.sent, last);
      }
    }
  }

  lemma TrialLeavesLower(us: seq<Upstream>, tiers: seq<Role>, order: seq<nat>, env: nat -> Attempt)
    requires tiers != [] && NoRepeats(tiers) && ListsTier(us, tiers[0], order)
    ensures SameIn(us, TryAll(us, order, env).upstreams, tiers[1..])
  {
    TryAllFrame(us, order, env);
  }

  /** Two requests in a row over the same candidates, the first answered within their tier, begin with
      the candidate whose turn it is and with the next one. */
  lemma NextRequestMovesOn(us: seq<Upstream>, tiers: seq<Role>, counter: nat, draws: Role -> nat, env: nat -> Attempt,
                           role: Role, vs: seq<Upstream>, draws': Role -> nat)
    requires NoRepeats(tiers) && FirstTier(us, tiers) == FirstTier(vs, tiers) == Some(role)
    requires Members(us, role) == Members(vs, role) && |Members(us, role)| >= 2 && counter + 1 < COUNTER_LIMIT
    requires
      var f := ForwardTiers(us, tiers, RoundRobin, counter, draws, env);
      f.answer.Some? && LastSentIn(us, f.sent, role)
    ensures
      var m, f := Members(us, role), ForwardTiers(us, tiers, RoundRobin, counter, draws, env);
      var first, second := Plan(us, tiers, RoundRobin, counter, draws), Plan(vs, tiers, RoundRobin, f.counter, draws');
      && first != [] && first[0] == m[counter % |m|]
      && second != [] && second[0] == m[(counter + 1) % |m|]
  {
    var last := CounterTakesTurns(us, tiers, RoundRobin, counter, draws, env);
    OneTurnTaken(us, tiers, counter, ForwardTiers(us, tiers, RoundRobin, counter, draws, env), last, role);
    TurnOf(us, tiers, role, counter, draws);
    TurnOf(vs, tiers, role, counter + 1, draws');
  }

  lemma OneTurnTaken(us: seq<Upstream>, tiers: seq<Role>, counter: nat, f: Forwarded, last: Option<Role>, role: Role)
    requires TurnsTaken(us, tiers, RoundRobin, counter, f, last) && f.answer.Some? && LastSentIn(us, f.sent, role)
    requires FirstTier(us, tiers) == Some(role) && |Members(us, role)| >= 2 && counter + 1 < COUNTER_LIMIT
    ensures f.counter == counter + 1
  {
    OneTurnOnly(us, tiers, role);
    DivisionIs(counter + 1, COUNTER_LIMIT, 0, counter + 1);
  }

  lemma TurnOf(us: seq<Upstream>, tiers: seq<Role>, role: Role, counter: nat, draws: Role -> nat)
    requires FirstTier(us, tiers) == Some(role) && |Members(us, role)| >= 2
    ensures
      var m, plan := Members(us, role), Plan(us, tiers, RoundRobin, counter, draws);
      plan != [] && plan[0] == m[counter % |m|]
  {
    PlanStartsInFirstTier(us, tiers, RoundRobin, counter, draws);
  }

  /** The tracker's own counter moves on by one with every poll that has a choice, so the next poll over
      the same candidates is of the next one. */
  lemma {:induction false} TrackerTakesTurns(us: seq<Upstream>, tiers: seq<Role>, role: Role, counter: nat,
                                             draws: Role -> nat)
    requires FirstTier(us, tiers) == Some(role) && counter + 1 < COUNTER_LIMIT
    ensures
      var m, (best, c) := Members(us, role), Best(us, tiers, RoundRobin, counter, draws);
      && best == Some(m[counter % |m|])
      && c == if |m| >= 2 then counter + 1 else counter
    decreases |tiers|
  {
    if Members(us, tiers[0]) == [] {
      TrackerTakesTurns(us, tiers[1..], role, counter, draws);
    } else {
      DivisionIs(counter + 1, COUNTER_LIMIT, 0, counter + 1);
      OneTurn(us, role, RoundRobin, counter, draws(role));
    }
  }

  lemma {:induction false} OneTurnOnly(us: seq<Upstream>, tiers: seq<Role>, role: Role)
    requires FirstTier(us, tiers) == Some(role) && |Members(us, role)| >= 2
    ensures Turns(us, tiers, Some(role)) == 1
  {
    if Members(us, tiers[0]) == [] {
      OneTurnOnly(us, tiers[1..], role);
    }
  }

  // ---------- lowest latency ----------

  /** Upstream i is the first of the fastest usable ones of its tier. */
  ghost predicate IsFastest(us: seq<Upstream>, i: nat) {
    && i < |us| && Usable(us[i])
    && forall j :: 0 <= j < |us| && us[j].role == us[i].role && Usable(us[j]) ==>
         us[i].latency <= us[j].latency && (j < i ==> us[i].latency < us[j].latency)
  }

  lemma FastestOfTier(us: seq<Upstream>, role: Role, counter: nat, draw: nat)
    requires Members(us, role) != []
    ensures us[Choice(us, role, LowestLatency, counter, draw)].role == role
    ensures IsFastest(us, Choice(us, role, LowestLatency, counter, draw))
  {
    var m := Members(us, role);
    var p := Select(Latencies(us, m), LowestLatency, counter, draw).0;
    MembersAre(us, role, |us|);
    forall j | 0 <= j < |us| && us[j].role == role && Usable(us[j])
      ensures us[m[p]].latency <= us[j].latency && (j < m[p] ==> us[m[p]].latency < us[j].latency)
    {
      var k :| 0 <= k < |m| && m[k] == j;
      FastestIsChosen(Latencies(us, m), counter, draw, k);
    }
  }

  /** With lowest latency, a request is tried first on, and the tracker polls, the first of the fastest
      usable upstreams of the first tier that has one. */
  lemma FastestComesFirst(us: seq<Upstream>, counter: nat, draws: Role -> nat, i: nat)
    requires i < |us| && Usable(us[i])
    ensures
      var plan, best := Plan(us, TIERS, LowestLatency, counter, draws), Best(us, TIERS, LowestLatency, counter, draws).0;
      && plan != [] && best == Some(plan[0]) && IsFastest(us, plan[0])
      && TierRank(us[plan[0]].role) <= TierRank(us[i].role)
      && (us[plan[0]].role == us[i].role ==> us[plan[0]].latency <= us[i].latency)
  {
    BestIsOfBestTier(us, LowestLatency, counter, draws);
    BestIsOfFirstTier(us, TIERS, LowestLatency, counter, draws);
    PlanStartsInFirstTier(us, TIERS, LowestLatency, counter, draws);
    var role := FirstTier(us, TIERS).value;
    FastestOfTier(us, role, counter, draws(role));
  }

  /** Two selections among the same n candidates agree. */
  predicate SelectionsAgree(s: Strategy, n: nat, c1: nat, d1: nat, c2: nat, d2: nat)
    requires n > 0
  {
    n == 1 ||
    match s
    case LowestLatency => true
    case RoundRobin => c1 % n == c2 % n
    case Random => d1 % n == d2 % n
  }

  lemma SameChoiceInTierIff(us: seq<Upstream>, role: Role, s: Strategy, c1: nat, d1: nat, c2: nat, d2: nat)
    requires Members(us, role) != []
    ensures Choice(us, role, s, c1, d1) == Choice(us, role, s, c2, d2)
       <==> SelectionsAgree(s, |Members(us, role)|, c1, d1, c2, d2)
  {
    MembersAre(us, role, |us|);
    var m := Members(us, role);
    var p, q := Select(Latencies(us, m), s, c1, d1).0, Select(Latencies(us, m), s, c2, d2).0;
    assert m[p] == m[q] <==> p == q;
  }

  /** The tracker polls the upstream that a request would be tried on first exactly when, in the
      first tier with a usable upstream, there is only one, or the latency decides, or the two
      counters (or draws) agree modulo the number of candidates. */
  lemma SameChoiceIff(us: seq<Upstream>, s: Strategy, c1: nat, draws1: Role -> nat, c2: nat, draws2: Role -> nat)
    ensures
      var best, plan := Best(us, TIERS, s, c1, draws1).0, Plan(us, TIERS, s, c2, draws2);
      match FirstTier(us, TIERS)
      case None => best == None && plan == []
      case Some(role) =>
        && best.Some? && plan != []
        && (best.value == plan[0]
            <==> SelectionsAgree(s, |Members(us, role)|, c1, draws1(role), c2, draws2(role)))
  {
    BestIsOfFirstTier(us, TIERS, s, c1, draws1);
    PlanStartsInFirstTier(us, TIERS, s, c2, draws2);
    if FirstTier(us, TIERS).Some? {
      var role := FirstTier(us, TIERS).value;
      SameChoiceInTierIff(us, role, s, c1, draws1(role), c2, draws2(role));
    }
  }

  lemma TwoPrimaries(u: Upstream)
    requires u.role == Primary && Usable(u)
    ensures Members([u, u], Primary) == [0, 1]
  {
    assert MembersUpTo([u, u], Primary, 1) == [0];
  }

  lemma PrimariesComeFirst(us: seq<Upstream>)
    requires Members(us, Primary) != []
    ensures FirstTier(us, TIERS) == Some(Primary)
  {
  }

  lemma CountersMatter(us: seq<Upstream>, draws: Role -> nat)
    requires |Members(us, Primary)| == 2
    ensures
      var best, plan := Best(us, TIERS, RoundRobin, 1, draws).0, Plan(us, TIERS, RoundRobin, 0, draws);
      best.Some? && plan != [] && best.value != plan[0]
  {
    PrimariesComeFirst(us);
    SameChoiceIff(us, RoundRobin, 1, draws, 0, draws);
  }

  /** With round robin over two new primaries, a tracker that has polled once and a manager that has
      forwarded nothing choose differently. */
  lemma ChoicesMayDiffer(maxRps: nat, retry: real, draws: Role -> nat)
    ensures
      var us := [NewUpstream(Primary, maxRps, retry), NewUpstream(Primary, maxRps, retry)];
      var best, plan := Best(us, TIERS, RoundRobin, 1, draws).0, Plan(us, TIERS, RoundRobin, 0, draws);
      best.Some? && plan != [] && best.value != plan[0]
  {
    var u := NewUpstream(Primary, maxRps, retry);
    TwoPrimaries(u);
    CountersMatter([u, u], draws);
  }
}
