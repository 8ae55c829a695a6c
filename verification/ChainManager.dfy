/** The manager of one chain as an object over its upstreams: forward_request with its loops
    over tiers and attempts (src/upstream/manager.rs). */
module ChainManager {
  import opened Wrappers
  import opened RpcTypes
  import opened UpstreamClient
  import opened UpstreamStrategy
  import opened Failover

  /** A trial that continues after requests were already sent. */
  ghost function After(sent: seq<nat>, t: Trial): Trial {
    t.(sent := sent + t.sent)
  }

  lemma AfterTwice(first: seq<nat>, second: seq<nat>, t: Trial)
    ensures After(first, After(second, t)) == After(first + second, t)
  {
    assert first + (second + t.sent) == first + second + t.sent;
  }

  lemma TryAllStep(us: seq<Upstream>, order: seq<nat>, k: nat, env: nat -> Attempt)
    requires InRange(order, |us|) && k < |order|
    ensures
      var i := order[k];
      var vs := us[i := AfterTry(us[i], env(i))];
      TryAll(us, order[k..], env) ==
        match OutcomeOf(us[i], env(i))
        case Won(resp) => Trial(vs, Some(resp), [i])
        case Limited => TryAll(vs, order[k + 1..], env)
        case Lost => After([i], TryAll(vs, order[k + 1..], env))
  {
    assert order[k..][1..] == order[k + 1..];
  }

  /** The rest of the tiers, after some were tried. */
  ghost function Then(sent: seq<nat>, anyTried: bool, f: Forwarded): Forwarded {
    f.(sent := sent + f.sent, anyTried := anyTried || f.anyTried)
  }

  lemma ThenTwice(first: seq<nat>, a: bool, second: seq<nat>, b: bool, f: Forwarded)
    ensures Then(first, a, Then(second, b, f)) == Then(first + second, a || b, f)
  {
    assert first + (second + f.sent) == first + second + f.sent;
  }

  /** What one tier contributes, given how its attempts went. */
  lemma TierStep(us: seq<Upstream>, tiers: seq<Role>, t: nat, s: Strategy, counter: nat,
                 draws: Role -> nat, env: nat -> Attempt, sent: seq<nat>, anyTried: bool,
                 order: seq<nat>, c: nat, r: Trial)
    requires t < |tiers|
    requires (order, c) == TierOrder(us, tiers[t], s, counter, draws(tiers[t]))
    requires r == TryAll(us, order, env)
    ensures
      Then(sent, anyTried, ForwardTiers(us, tiers[t..], s, counter, draws, env)) ==
        if r.answer.Some? then Forwarded(r.upstreams, c, r.answer, sent + r.sent, true)
        else Then(sent + r.sent, anyTried || order != [],
                  ForwardTiers(r.upstreams, tiers[t + 1..], s, c, draws, env))
  {
    assert tiers[t..][1..] == tiers[t + 1..];
    if order == [] {
      assert sent + [] == sent;
    } else if r.answer == None {
      ThenTwice(sent, anyTried, r.sent, true, ForwardTiers(r.upstreams, tiers[t + 1..], s, c, draws, env));
    }
  }

  class Manager {
    const upstreams: seq<Client>
    const strategy: Strategy
    var roundRobin: nat

    ghost predicate Valid() {
      forall i, j :: 0 <= i < j < |upstreams| ==>
        upstreams[i] != upstreams[j] && upstreams[i].rateLimiter != upstreams[j].rateLimiter
    }

    ghost function Repr(): set<object> {
      (set i | 0 <= i < |upstreams| :: upstreams[i] as object)
      + (set i | 0 <= i < |upstreams| :: upstreams[i].rateLimiter as object)
    }

    ghost function View(): (us: seq<Upstream>)
      reads Repr()
      ensures |us| == |upstreams|
    {
      seq(|upstreams|, i requires 0 <= i < |upstreams| reads Repr() => upstreams[i].View())
    }

    constructor (upstreams: seq<Client>, strategy: Strategy)
      ensures this.upstreams == upstreams && this.strategy == strategy && roundRobin == 0
    {
      this.upstreams, this.strategy, this.roundRobin := upstreams, strategy, 0;
    }

    /** The usable upstreams of a tier, and their latencies. */
    method TierMembers(role: Role) returns (members: seq<nat>, latencies: seq<nat>)
      ensures members == Members(View(), role) && latencies == Latencies(View(), members)
    {
      members, latencies := [], [];
      for i := 0 to |upstreams|
        invariant members == MembersUpTo(View(), role, i)
        invariant latencies == Latencies(View(), members)
      {
        var u := upstreams[i];
        if u.role == role && !u.disabled && u.healthy {
          members := members + [i];
          latencies := latencies + [u.latencyUs];
        }
      }
    }

    /** One attempt: ask for a token, send, record the outcome. */
    method Try(i: nat, a: Attempt) returns (outcome: Outcome)
      requires Valid() && i < |upstreams|
      modifies upstreams[i], upstreams[i].rateLimiter
      ensures outcome == OutcomeOf(old(View())[i], a)
      ensures View() == old(View())[i := AfterTry(old(View())[i], a)]
    {
      ghost var before := View();
      var u := upstreams[i];
      assert before[i] == u.View();
      var allowed := u.rateLimiter.TryAcquire(a.askedAt);
      if !allowed {
        outcome := Limited;
      } else {
        match a.reply {
          case Unreachable => u.RecordHttpError(a.doneAt);
          case HttpStatus(counts, elapsed) =>
            u.UpdateLatency(elapsed);
            if counts {
              u.RecordHttpError(a.doneAt);
            }
          case BadBody(elapsed) => u.UpdateLatency(elapsed);
          case Answer(_, elapsed) => u.UpdateLatency(elapsed);
        }
        if a.reply.Answer? {
          u.RecordSuccess(a.doneAt);
          outcome := Won(a.reply.resp);
        } else {
          u.RecordFailure(a.doneAt);
          outcome := Lost;
        }
      }
      assert u.View() == AfterTry(before[i], a);
      forall j | 0 <= j < |upstreams| && j != i ensures View()[j] == before[j] {
        assert upstreams[j] != u && upstreams[j].rateLimiter != u.rateLimiter;
        assert before[j] == old(upstreams[j].View());
      }
    }

    /** The attempts of one tier. */
    method TryTier(order: seq<nat>, env: nat -> Attempt)
        returns (answer: Option<Response>, allLimited: bool, ghost sent: seq<nat>)
      requires Valid() && InRange(order, |upstreams|)
      modifies Repr()
      ensures TryAll(old(View()), order, env) == Trial(View(), answer, sent)
      ensures allLimited <==> sent == []
    {
      answer, allLimited, sent := None, true, [];
      ghost var whole := TryAll(View(), order, env);
      for k := 0 to |order|
        invariant answer == None && (allLimited <==> sent == [])
        invariant whole == After(sent, TryAll(View(), order[k..], env))
      {
        TryAllStep(View(), order, k, env);
        var outcome := Try(order[k], env(order[k]));
        AfterTwice(sent, [order[k]], TryAll(View(), order[k + 1..], env));
        match outcome {
          case Won(resp) =>
            allLimited, sent := false, sent + [order[k]];
            answer := Some(resp);
            return;
          case Limited =>
          case Lost =>
            allLimited, sent := false, sent + [order[k]];
        }
      }
    }

    /** The preferred candidate first, then the others. */
    method AttemptOrder(members: seq<nat>, p: nat) returns (order: seq<nat>)
      requires p < |members| && forall j, k :: 0 <= j < k < |members| ==> members[j] < members[k]
      ensures order == PreferredFirst(members, p)
    {
      order := [members[p]];
      for k := 0 to |members|
        invariant order == if k <= p then [members[p]] + members[..k]
                           else [members[p]] + members[..p] + members[p + 1..k]
      {
        if members[k] != members[p] {
          order := order + [members[k]];
        }
      }
    }

    /** One tier: select, order, try. */
    method TryRole(role: Role, draw: nat, env: nat -> Attempt)
        returns (answer: Option<Response>, tried: bool, allLimited: bool, ghost sent: seq<nat>)
      requires Valid()
      modifies this`roundRobin, Repr()
      ensures
        var (order, c) := TierOrder(old(View()), role, strategy, old(roundRobin), draw);
        && (tried <==> order != [])
        && roundRobin == c
        && TryAll(old(View()), order, env) == Trial(View(), answer, sent)
        && (allLimited <==> sent == [])
    {
      answer, tried, allLimited, sent := None, false, true, [];
      ghost var us, counter := View(), roundRobin;
      var members, latencies := TierMembers(role);
      if members != [] {
        tried := true;
        MembersAre(us, role, |us|);
        var choice := Select(latencies, strategy, roundRobin, draw);
        roundRobin := choice.1;
        var order := AttemptOrder(members, choice.0);
        assert (order, roundRobin) == TierOrder(us, role, strategy, counter, draw);
        assert View() == us;
        answer, allLimited, sent := TryTier(order, env);
      }
    }

    /** The loop over the tiers, which ends at the first answer. */
    method TryTiers(tiers: seq<Role>, draws: Role -> nat, env: nat -> Attempt)
        returns (answer: Option<Response>, anyTried: bool, allLimited: bool, ghost sent: seq<nat>)
      requires Valid()
      modifies this`roundRobin, Repr()
      ensures ForwardTiers(old(View()), tiers, strategy, old(roundRobin), draws, env)
           == Forwarded(View(), roundRobin, answer, sent, anyTried)
      ensures allLimited <==> sent == []
    {
      answer, anyTried, allLimited, sent := None, false, true, [];
      ghost var whole := ForwardTiers(View(), tiers, strategy, roundRobin, draws, env);
      for t := 0 to |tiers|
        invariant answer == None && (allLimited <==> sent == [])
        invariant whole == Then(sent, anyTried, ForwardTiers(View(), tiers[t..], strategy, roundRobin, draws, env))
      {
        ghost var us, counter := View(), roundRobin;
        var found, tried, limited, tierSent := TryRole(tiers[t], draws(tiers[t]), env);
        TierStep(us, tiers, t, strategy, counter, draws, env, sent, anyTried,
                 TierOrder(us, tiers[t], strategy, counter, draws(tiers[t])).0, roundRobin,
                 Trial(View(), found, tierSent));
        anyTried, allLimited, sent := anyTried || tried, allLimited && limited, sent + tierSent;
        if found.Some? {
          answer := found;
          return;
        }
      }
    }

    /** Forwards a request, given what would happen at each upstream and what the random draw of
        each tier would be. */
    method ForwardRequest(draws: Role -> nat, env: nat -> Attempt) returns (result: Result<Response, Error>)
      requires Valid()
      modifies this`roundRobin, Repr()
      ensures
        var f := ForwardTiers(old(View()), TIERS, strategy, old(roundRobin), draws, env);
        View() == f.upstreams && roundRobin == f.counter && result == ResultOf(f)
    {
      var answer, anyTried, allLimited, sent := TryTiers(TIERS, draws, env);
      if answer.Some? {
        result := Ok(answer.value);
      } else if !anyTried {
        result := Err(NoHealthyUpstreams);
      } else if allLimited {
        result := Err(AllRateLimited);
      } else {
        result := Err(AllFailed);
      }
    }
  }
}
