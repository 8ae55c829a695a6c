/** How the block tracker chooses the upstream it polls (src/upstream/tracker.rs).  It has the
    strategy of its chain's manager, but a round-robin counter of its own. */
module TrackerChoice {
  import opened Wrappers
  import opened UpstreamClient
  import opened UpstreamStrategy
  import opened Failover
  import opened ChainManager

  lemma BestStep(us: seq<Upstream>, tiers: seq<Role>, t: nat, s: Strategy, counter: nat, draws: Role -> nat)
    requires t < |tiers|
    ensures
      var members := Members(us, tiers[t]);
      Best(us, tiers[t..], s, counter, draws) ==
        if members == [] then Best(us, tiers[t + 1..], s, counter, draws)
        else
          var choice := Select(Latencies(us, members), s, counter, draws(tiers[t]));
          (Some(members[choice.0]), choice.1)
  {
    assert tiers[t..][1..] == tiers[t + 1..];
  }

  class Chooser {
    const strategy: Strategy
    var roundRobin: nat

    constructor (strategy: Strategy)
      ensures this.strategy == strategy && roundRobin == 0
    {
      this.strategy, this.roundRobin := strategy, 0;
    }

    /** The strategy's choice in the first of the tiers that has a usable upstream. */
    method SelectBestUpstream(manager: Manager, tiers: seq<Role>, draws: Role -> nat) returns (best: Option<nat>)
      modifies this
      ensures (best, roundRobin) == Best(manager.View(), tiers, strategy, old(roundRobin), draws)
      ensures manager.View() == old(manager.View()) && manager.roundRobin == old(manager.roundRobin)
    {
      ghost var us := manager.View();
      for t := 0 to |tiers|
        invariant manager.View() == us && roundRobin == old(roundRobin)
        invariant Best(us, tiers, strategy, roundRobin, draws) == Best(us, tiers[t..], strategy, roundRobin, draws)
      {
        BestStep(us, tiers, t, strategy, roundRobin, draws);
        var members, latencies := manager.TierMembers(tiers[t]);
        if members != [] {
          var choice := Select(latencies, strategy, roundRobin, draws(tiers[t]));
          assert members == Members(us, tiers[t]) && latencies == Latencies(us, members);
          assert Best(us, tiers[t..], strategy, roundRobin, draws).0 == Some(members[choice.0]);
          assert Best(us, tiers[t..], strategy, roundRobin, draws).1 == choice.1;
          roundRobin := choice.1;
          assert manager.View() == us;
          best := Some(members[choice.0]);
          return;
        }
      }
      best := None;
    }
  }
}
