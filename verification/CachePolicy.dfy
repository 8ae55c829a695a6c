/** How long a reply may be kept (src/cache/policy.rs).  Durations are in milliseconds; zero
    means without expiry. */
module CachePolicy {
  import opened Wrappers

  datatype Finality = Finalized | Unfinalized | Any

  datatype Ttl = Never | Forever | Duration(ms: nat)

  datatype Policy = Policy(methods: seq<string>, finality: Finality, ttl: Ttl)

  predicate MatchesMethod(patterns: seq<string>, name: string) {
    exists i :: 0 <= i < |patterns| && (patterns[i] == "*" || patterns[i] == name)
  }

  predicate MatchesFinality(policy: Finality, request: Finality) {
    policy == Any || policy == request
  }

  predicate Applies(p: Policy, name: string, unfinalized: bool) {
    MatchesMethod(p.methods, name)
    && MatchesFinality(p.finality, if unfinalized then Unfinalized else Finalized)
  }

  function Allowed(ttl: Ttl): Option<nat> {
    match ttl
    case Never => None
    case Forever => Some(0)
    case Duration(ms) => Some(ms)
  }

  /** The first policy that applies decides; without one the default depends on finality.
      Nothing means: do not store. */
  function ResolveTtl(policies: seq<Policy>, name: string, unfinalized: bool): Option<nat> {
    if policies == [] then Some(if unfinalized then 3_000 else 3_600_000)
    else if Applies(policies[0], name, unfinalized) then Allowed(policies[0].ttl)
    else ResolveTtl(policies[1..], name, unfinalized)
  }

  /** A policy decides exactly when it applies and none before it does. */
  lemma {:induction false} FirstPolicyDecides(policies: seq<Policy>, name: string, unfinalized: bool, i: nat)
    requires i < |policies| && Applies(policies[i], name, unfinalized)
    requires forall j :: 0 <= j < i ==> !Applies(policies[j], name, unfinalized)
    ensures ResolveTtl(policies, name, unfinalized) == Allowed(policies[i].ttl)
  {
    if i > 0 {
      FirstPolicyDecides(policies[1..], name, unfinalized, i - 1);
    }
  }

  lemma {:induction false} DefaultTtl(policies: seq<Policy>, name: string, unfinalized: bool)
    requires forall j :: 0 <= j < |policies| ==> !Applies(policies[j], name, unfinalized)
    ensures ResolveTtl(policies, name, unfinalized) == Some(if unfinalized then 3_000 else 3_600_000)
  {
    if policies != [] {
      DefaultTtl(policies[1..], name, unfinalized);
    }
  }
}
