/** The integer moving average of request latency (src/upstream/client.rs), in microseconds. */
module Latency {
  import opened Numerals

  const UNMEASURED: nat := U64_LIMIT - 1

  /** Samples up to this one cannot overflow the average. */
  const SAFE: nat := (U64_LIMIT - 1) / 10

  /** Three parts new, seven parts old, in wrapping 64-bit arithmetic, rounded down; the first
      sample is taken as it is. */
  function Update(previous: nat, sample: nat): nat {
    if previous == UNMEASURED then sample
    else (sample * 3 + previous * 7) % U64_LIMIT / 10
  }

  function Average(samples: seq<nat>): nat {
    if samples == [] then UNMEASURED
    else Update(Average(samples[..|samples| - 1]), samples[|samples| - 1])
  }

  lemma UpdateWithin(previous: nat, sample: nat, low: nat, high: nat)
    requires low <= previous <= high <= SAFE && low <= sample <= high
    ensures low <= Update(previous, sample) <= high
  {
    assert sample * 3 + previous * 7 < U64_LIMIT;
  }

  /** The average lies between the least and the greatest sample seen: it is within every
      range that all samples are within. */
  lemma {:induction false} AverageWithinSamples(samples: seq<nat>, low: nat, high: nat)
    requires samples != [] && high <= SAFE
    requires forall i :: 0 <= i < |samples| ==> low <= samples[i] <= high
    ensures low <= Average(samples) <= high
  {
    var n := |samples| - 1;
    if n > 0 {
      AverageWithinSamples(samples[..n], low, high);
      UpdateWithin(Average(samples[..n]), samples[n], low, high);
    } else {
      assert samples[..n] == [];
    }
  }

  function Iterate(previous: nat, sample: nat, n: nat): nat {
    if n == 0 then previous else Update(Iterate(previous, sample, n - 1), sample)
  }

  /** Where a constant sample leads: to the sample from above, to within three below it from
      below, and nowhere from there. */
  function Limit(previous: nat, sample: nat): nat {
    if previous >= sample then sample
    else if previous + 3 >= sample then previous
    else sample - 3
  }

  function Distance(a: nat, b: nat): nat {
    if a <= b then b - a else a - b
  }

  lemma UpdateApproaches(p: nat, c: nat)
    requires p <= SAFE && c <= SAFE
    ensures
      var q := Update(p, c);
      && q <= SAFE
      && (p >= c ==> c <= q <= p && (q == p ==> p == c))
      && (p < c ==> p <= q <= c && (q == p <==> p + 3 >= c))
      && Limit(q, c) == Limit(p, c)
      && (p != Limit(p, c) ==> Distance(q, Limit(p, c)) < Distance(p, Limit(p, c)))
  {
  }

  /** Under a constant sample the average never moves away from its limit, and is there after
      at most as many updates as it started away. */
  lemma {:induction false} ConstantSampleConverges(p: nat, c: nat, n: nat)
    requires p <= SAFE && c <= SAFE
    ensures
      var q := Iterate(p, c, n);
      && q <= SAFE
      && (p >= c ==> c <= q <= p) && (p < c ==> p <= q <= c)
      && Limit(q, c) == Limit(p, c)
      && (n > 0 && p >= c ==> q <= Iterate(p, c, n - 1)) && (n > 0 && p < c ==> q >= Iterate(p, c, n - 1))
      && (if n >= Distance(p, Limit(p, c)) then q == Limit(p, c)
          else Distance(q, Limit(p, c)) + n <= Distance(p, Limit(p, c)))
  {
    if n > 0 {
      ConstantSampleConverges(p, c, n - 1);
      UpdateApproaches(Iterate(p, c, n - 1), c);
    }
  }
}
