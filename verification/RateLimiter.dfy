/** The token bucket (src/middleware/rate_limit.rs), over real numbers. */
module RateLimiter {
  type Time = real

  datatype Bucket = Bucket(tokens: real, maxTokens: real, refillRate: real, lastRefill: Time)

  function NewBucket(maxRps: nat, now: Time): Bucket {
    Bucket(maxRps as real, maxRps as real, maxRps as real, now)
  }

  function Min(a: real, b: real): real {
    if a <= b then a else b
  }

  /** Time since an earlier instant; zero when the clock reads earlier. */
  function Elapsed(since: Time, now: Time): real {
    if since <= now then now - since else 0.0
  }

  /** The tokens that time brings, before the cap. */
  function TimeGain(since: Time, now: Time, rate: real): real {
    Elapsed(since, now) * rate
  }

  /** The bucket brought up to date: it gains tokens at the refill rate and never overflows. */
  function Refill(b: Bucket, now: Time): Bucket {
    b.(tokens := Min(b.tokens + TimeGain(b.lastRefill, now, b.refillRate), b.maxTokens), lastRefill := now)
  }

  predicate Grants(b: Bucket, now: Time) {
    Refill(b, now).tokens >= 1.0
  }

  function Spend(b: Bucket): Bucket {
    b.(tokens := b.tokens - 1.0)
  }

  function AfterAcquire(b: Bucket, now: Time): Bucket {
    if Grants(b, now) then Spend(Refill(b, now)) else Refill(b, now)
  }

  /** The limiter as the object whose fields a request updates. */
  class Limiter {
    var tokens: real
    const maxTokens: real
    const refillRate: real
    var lastRefill: Time

    ghost function View(): Bucket
      reads this
    {
      Bucket(tokens, maxTokens, refillRate, lastRefill)
    }

    constructor (maxRps: nat, now: Time)
      ensures View() == NewBucket(maxRps, now)
    {
      tokens, maxTokens, refillRate, lastRefill := maxRps as real, maxRps as real, maxRps as real, now;
    }

    method TryAcquire(now: Time) returns (allowed: bool)
      modifies this
      ensures allowed == Grants(old(View()), now)
      ensures View() == AfterAcquire(old(View()), now)
    {
      var gain := TimeGain(lastRefill, now, refillRate);
      tokens := Min(tokens + gain, maxTokens);
      lastRefill := now;
      if tokens >= 1.0 {
        tokens := tokens - 1.0;
        allowed := true;
      } else {
        allowed := false;
      }
    }
  }

  // ---------- schedules: which of a sequence of arrivals are granted ----------

  predicate Nondecreasing(arrivals: seq<Time>) {
    forall i, j :: 0 <= i <= j < |arrivals| ==> arrivals[i] <= arrivals[j]
  }

  /** The tokens that time brings up to arrival i since the arrival before it. */
  function Gain(b: Bucket, arrivals: seq<Time>, i: nat): real
    requires i < |arrivals|
  {
    TimeGain(if i == 0 then b.lastRefill else arrivals[i - 1], arrivals[i], b.refillRate)
  }

  function Gains(b: Bucket, arrivals: seq<Time>): seq<real> {
    seq(|arrivals|, i requires 0 <= i < |arrivals| => Gain(b, arrivals, i))
  }

  /** The tokens left after the arrivals were decided as given: each time the bucket gains,
      overflows at the cap, and loses a token for a grant. */
  function Level(tokens: real, cap: real, gains: seq<real>, granted: seq<bool>): real
    requires |gains| == |granted|
  {
    var n := |gains|;
    if n == 0 then tokens
    else
      Min(Level(tokens, cap, gains[..n - 1], granted[..n - 1]) + gains[n - 1], cap)
      - if granted[n - 1] then 1.0 else 0.0
  }

  /** Every granted arrival found a whole token in the bucket. */
  predicate Feasible(tokens: real, cap: real, gains: seq<real>, granted: seq<bool>)
    requires |gains| == |granted|
  {
    var n := |gains|;
    n == 0 ||
    (&& Feasible(tokens, cap, gains[..n - 1], granted[..n - 1])
     && (granted[n - 1] ==>
           Min(Level(tokens, cap, gains[..n - 1], granted[..n - 1]) + gains[n - 1], cap) >= 1.0))
  }

  function Count(granted: seq<bool>): nat {
    if granted == [] then 0
    else Count(granted[..|granted| - 1]) + if granted[|granted| - 1] then 1 else 0
  }

  /** What the limiter itself decides. */
  function Greedy(tokens: real, cap: real, gains: seq<real>): (granted: seq<bool>)
    ensures |granted| == |gains|
  {
    var n := |gains|;
    if n == 0 then []
    else
      var before := Greedy(tokens, cap, gains[..n - 1]);
      before + [Min(Level(tokens, cap, gains[..n - 1], before) + gains[n - 1], cap) >= 1.0]
  }

  function Since(b: Bucket, arrivals: seq<Time>, i: nat): Time
    requires i <= |arrivals|
  {
    if i == 0 then b.lastRefill else arrivals[i - 1]
  }

  lemma GainsNext(b: Bucket, arrivals: seq<Time>, i: nat)
    requires i < |arrivals|
    ensures Gains(b, arrivals[..i + 1])
         == Gains(b, arrivals[..i]) + [TimeGain(Since(b, arrivals, i), arrivals[i], b.refillRate)]
  {
    forall k | 0 <= k < i ensures Gains(b, arrivals[..i + 1])[k] == Gains(b, arrivals[..i])[k] {
      assert Gain(b, arrivals[..i + 1], k) == Gain(b, arrivals[..i], k);
    }
  }

  lemma GreedyNext(tokens: real, cap: real, gains: seq<real>, gain: real)
    ensures
      var granted := Greedy(tokens, cap, gains);
      var full := Min(Level(tokens, cap, gains, granted) + gain, cap);
      && Greedy(tokens, cap, gains + [gain]) == granted + [full >= 1.0]
      && Level(tokens, cap, gains + [gain], granted + [full >= 1.0]) == full - if full >= 1.0 then 1.0 else 0.0
  {
    var granted := Greedy(tokens, cap, gains);
    assert (gains + [gain])[..|gains|] == gains;
    forall last ensures (granted + [last])[..|gains|] == granted {
    }
  }

  /** Serves a sequence of arrivals with one limiter: it decides greedily, and its tokens are
      the level of that schedule. */
  method Serve(limiter: Limiter, arrivals: seq<Time>) returns (granted: seq<bool>)
    modifies limiter
    ensures
      var b := old(limiter.View());
      && granted == Greedy(b.tokens, b.maxTokens, Gains(b, arrivals))
      && limiter.tokens == Level(b.tokens, b.maxTokens, Gains(b, arrivals), granted)
  {
    granted := [];
    ghost var b := limiter.View();
    for i := 0 to |arrivals|
      invariant limiter.lastRefill == Since(b, arrivals, i)
      invariant granted == Greedy(b.tokens, b.maxTokens, Gains(b, arrivals[..i]))
      invariant limiter.tokens == Level(b.tokens, b.maxTokens, Gains(b, arrivals[..i]), granted)
    {
      GainsNext(b, arrivals, i);
      GreedyNext(b.tokens, b.maxTokens, Gains(b, arrivals[..i]), TimeGain(limiter.lastRefill, arrivals[i], b.refillRate));
      var allowed := limiter.TryAcquire(arrivals[i]);
      granted := granted + [allowed];
    }
    assert arrivals[..|arrivals|] == arrivals;
  }

  lemma {:induction false} LevelInRange(tokens: real, cap: real, gains: seq<real>, granted: seq<bool>)
    requires 0.0 <= tokens <= cap && forall i :: 0 <= i < |gains| ==> 0.0 <= gains[i]
    requires |gains| == |granted| && Feasible(tokens, cap, gains, granted)
    ensures 0.0 <= Level(tokens, cap, gains, granted) <= cap
  {
    var n := |gains|;
    if n > 0 {
      LevelInRange(tokens, cap, gains[..n - 1], granted[..n - 1]);
    }
  }

  lemma {:induction false} GreedyIsFeasible(tokens: real, cap: real, gains: seq<real>)
    ensures Feasible(tokens, cap, gains, Greedy(tokens, cap, gains))
  {
    var n := |gains|;
    if n > 0 {
      GreedyIsFeasible(tokens, cap, gains[..n - 1]);
      assert Greedy(tokens, cap, gains)[..n - 1] == Greedy(tokens, cap, gains[..n - 1]);
    }
  }

  lemma {:induction false} PrefixFeasible(tokens: real, cap: real, gains: seq<real>, granted: seq<bool>, k: nat)
    requires |gains| == |granted| && Feasible(tokens, cap, gains, granted) && k <= |gains|
    ensures Feasible(tokens, cap, gains[..k], granted[..k])
  {
    var n := |gains|;
    if k < n {
      PrefixFeasible(tokens, cap, gains[..n - 1], granted[..n - 1], k);
      assert gains[..n - 1][..k] == gains[..k] && granted[..n - 1][..k] == granted[..k];
    } else {
      assert gains[..k] == gains && granted[..k] == granted;
    }
  }

  // ---------- no window grants more than a full bucket plus the refill ----------

  function Sum(xs: seq<real>): real {
    if xs == [] then 0.0 else Sum(xs[..|xs| - 1]) + xs[|xs| - 1]
  }

  /** Grants from arrival i on, and the tokens left, are paid for by a full bucket at i and
      the later gains. */
  lemma {:induction false} TokensPaidFor(tokens: real, cap: real, gains: seq<real>, granted: seq<bool>, i: nat)
    requires |gains| == |granted| && i < |gains|
    ensures Level(tokens, cap, gains, granted) + Count(granted[i..]) as real <= cap + Sum(gains[i + 1..])
    decreases |gains|
  {
    var n := |gains|;
    assert granted[i..][..n - 1 - i] == granted[..n - 1][i..];
    if i < n - 1 {
      TokensPaidFor(tokens, cap, gains[..n - 1], granted[..n - 1], i);
      assert gains[i + 1..][..n - 2 - i] == gains[..n - 1][i + 1..];
    }
  }

  lemma TimeGainAdds(start: Time, mid: Time, end: Time, rate: real)
    requires start <= mid <= end
    ensures TimeGain(start, mid, rate) + TimeGain(mid, end, rate) == TimeGain(start, end, rate)
  {
  }

  lemma {:induction false} GainsOverWindow(b: Bucket, arrivals: seq<Time>, i: nat, j: nat)
    requires Nondecreasing(arrivals) && i <= j < |arrivals|
    ensures Sum(Gains(b, arrivals)[i + 1..j + 1]) == TimeGain(arrivals[i], arrivals[j], b.refillRate)
  {
    if i < j {
      GainsOverWindow(b, arrivals, i, j - 1);
      var g := Gains(b, arrivals);
      assert g[i + 1..j + 1][..j - i - 1] == g[i + 1..j];
      assert g[j] == Gain(b, arrivals, j);
      TimeGainAdds(arrivals[i], arrivals[j - 1], arrivals[j], b.refillRate);
    }
  }

  /** A full bucket and what time brings: maxRps * (1 + length). */
  function Allowance(maxRps: nat, length: real): real {
    maxRps as real * (1.0 + length)
  }

  lemma AllowanceIs(maxRps: nat, start: Time, end: Time)
    requires start <= end
    ensures maxRps as real + TimeGain(start, end, maxRps as real) == Allowance(maxRps, end - start)
  {
  }

  lemma WindowPaidFor(cap: real, gains: seq<real>, granted: seq<bool>, i: nat, j: nat)
    requires 0.0 <= cap && forall k :: 0 <= k < |gains| ==> 0.0 <= gains[k]
    requires |gains| == |granted| && Feasible(cap, cap, gains, granted) && i <= j < |gains|
    ensures Count(granted[i..j + 1]) as real <= cap + Sum(gains[i + 1..j + 1])
  {
    PrefixFeasible(cap, cap, gains, granted, j + 1);
    LevelInRange(cap, cap, gains[..j + 1], granted[..j + 1]);
    TokensPaidFor(cap, cap, gains[..j + 1], granted[..j + 1], i);
    assert granted[..j + 1][i..] == granted[i..j + 1];
    assert gains[..j + 1][i + 1..] == gains[i + 1..j + 1];
  }

  /** In any window of any feasible schedule, from arrival i to arrival j, at most
      maxRps * (1 + length of the window) arrivals are granted. */
  lemma WindowBound(maxRps: nat, start: Time, arrivals: seq<Time>, granted: seq<bool>, i: nat, j: nat)
    requires Nondecreasing(arrivals) && |arrivals| == |granted| && i <= j < |arrivals|
    requires Feasible(maxRps as real, maxRps as real, Gains(NewBucket(maxRps, start), arrivals), granted)
    ensures Count(granted[i..j + 1]) as real <= Allowance(maxRps, arrivals[j] - arrivals[i])
  {
    var b := NewBucket(maxRps, start);
    var gains := Gains(b, arrivals);
    forall k | 0 <= k < |gains| ensures 0.0 <= gains[k] {
      assert gains[k] == Gain(b, arrivals, k);
    }
    WindowPaidFor(maxRps as real, gains, granted, i, j);
    GainsOverWindow(b, arrivals, i, j);
    AllowanceIs(maxRps, arrivals[i], arrivals[j]);
  }

  /** A burst that drains the bucket, then one arrival per refilled token. */
  function Saturating(maxRps: nat, n: nat): seq<Time>
    requires 0 < maxRps
  {
    seq(maxRps + n, i => if i < maxRps then 0.0 else (i - maxRps + 1) as real / maxRps as real)
  }

  lemma RefillOfOneToken(maxRps: nat, k: nat)
    requires 0 < maxRps
    ensures k as real / maxRps as real <= (k + 1) as real / maxRps as real
    ensures TimeGain(k as real / maxRps as real, (k + 1) as real / maxRps as real, maxRps as real) == 1.0
  {
    var m := maxRps as real;
    assert (k + 1) as real / m == k as real / m + 1.0 / m;
    assert 1.0 / m * m == 1.0;
  }

  lemma {:induction false} AllGranted(maxRps: nat, gains: seq<real>, granted: seq<bool>)
    requires |gains| == |granted| && forall i :: 0 <= i < |granted| ==> granted[i]
    requires forall i :: 0 <= i < |gains| ==> gains[i] == if i < maxRps then 0.0 else 1.0
    requires 0 < maxRps
    ensures Feasible(maxRps as real, maxRps as real, gains, granted)
    ensures Level(maxRps as real, maxRps as real, gains, granted)
         == if |gains| <= maxRps then (maxRps - |gains|) as real else 0.0
    ensures Count(granted) == |granted|
  {
    var n := |gains|;
    if n > 0 {
      AllGranted(maxRps, gains[..n - 1], granted[..n - 1]);
    }
  }

  /** The window bound is reached: all maxRps + n arrivals of this sequence are granted, and that
      is exactly the allowance of the window they fill. */
  lemma BoundIsReached(maxRps: nat, n: nat)
    requires 0 < maxRps
    ensures
      var arrivals := Saturating(maxRps, n);
      var granted := Greedy(maxRps as real, maxRps as real, Gains(NewBucket(maxRps, 0.0), arrivals));
      && Count(granted) == maxRps + n
      && Count(granted) as real == Allowance(maxRps, arrivals[maxRps + n - 1] - arrivals[0])
  {
    var arrivals, m := Saturating(maxRps, n), maxRps as real;
    var b := NewBucket(maxRps, 0.0);
    var gains := Gains(b, arrivals);
    forall i | 0 <= i < |gains| ensures gains[i] == if i < maxRps then 0.0 else 1.0 {
      assert gains[i] == Gain(b, arrivals, i);
      if i >= maxRps {
        RefillOfOneToken(maxRps, i - maxRps);
        assert arrivals[i - 1] == (i - maxRps) as real / m;
      } else {
        assert Elapsed(0.0, 0.0) == 0.0;
      }
    }
    var all := seq(maxRps + n, i => true);
    AllGranted(maxRps, gains, all);
    GreedyStaysAhead(m, m, gains, all);
    CountAtMostLength(Greedy(m, m, gains));
    LastSaturating(maxRps, n);
  }

  lemma LastSaturating(maxRps: nat, n: nat)
    requires 0 < maxRps
    ensures
      var arrivals := Saturating(maxRps, n);
      Allowance(maxRps, arrivals[maxRps + n - 1] - arrivals[0]) == (maxRps + n) as real
  {
    assert Saturating(maxRps, n)[maxRps + n - 1] - 0.0 == n as real / maxRps as real;
  }

  lemma {:induction false} CountAtMostLength(granted: seq<bool>)
    ensures Count(granted) <= |granted|
  {
    if granted != [] {
      CountAtMostLength(granted[..|granted| - 1]);
    }
  }

  // ---------- no schedule grants more than the limiter ----------

  /** Whatever another schedule has saved up over the limiter, the limiter has already granted. */
  lemma {:induction false} GreedyStaysAhead(tokens: real, cap: real, gains: seq<real>, granted: seq<bool>)
    requires |gains| == |granted| && Feasible(tokens, cap, gains, granted)
    ensures
      var greedy := Greedy(tokens, cap, gains);
      && Count(granted) <= Count(greedy)
      && Level(tokens, cap, gains, granted) - Level(tokens, cap, gains, greedy)
         <= (Count(greedy) - Count(granted)) as real
  {
    var n := |gains|;
    if n > 0 {
      var greedy := Greedy(tokens, cap, gains);
      GreedyStaysAhead(tokens, cap, gains[..n - 1], granted[..n - 1]);
      assert greedy[..n - 1] == Greedy(tokens, cap, gains[..n - 1]);
    }
  }

  /** On every prefix of every sequence of arrivals, no schedule that obeys the same refill and
      cap rule has granted more than the limiter. */
  lemma GreedyIsOptimal(b: Bucket, arrivals: seq<Time>, granted: seq<bool>, k: nat)
    requires |arrivals| == |granted| && k <= |arrivals|
    requires Feasible(b.tokens, b.maxTokens, Gains(b, arrivals), granted)
    ensures Feasible(b.tokens, b.maxTokens, Gains(b, arrivals), Greedy(b.tokens, b.maxTokens, Gains(b, arrivals)))
    ensures Count(granted[..k]) <= Count(Greedy(b.tokens, b.maxTokens, Gains(b, arrivals))[..k])
  {
    var gains := Gains(b, arrivals);
    GreedyIsFeasible(b.tokens, b.maxTokens, gains);
    PrefixFeasible(b.tokens, b.maxTokens, gains, granted, k);
    GreedyStaysAhead(b.tokens, b.maxTokens, gains[..k], granted[..k]);
    GreedyPrefix(b.tokens, b.maxTokens, gains, k);
  }

  lemma {:induction false} GreedyPrefix(tokens: real, cap: real, gains: seq<real>, k: nat)
    requires k <= |gains|
    ensures Greedy(tokens, cap, gains)[..k] == Greedy(tokens, cap, gains[..k])
  {
    var n := |gains|;
    if k < n {
      GreedyPrefix(tokens, cap, gains[..n - 1], k);
      assert gains[..n - 1][..k] == gains[..k];
      assert Greedy(tokens, cap, gains)[..k] == Greedy(tokens, cap, gains[..n - 1])[..k];
    } else {
      assert gains[..k] == gains;
    }
  }
}
