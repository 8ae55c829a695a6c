/** Choosing one of several candidates (src/upstream/strategy.rs). */
module UpstreamStrategy {
  import Numerals

  datatype Strategy = RoundRobin | Random | LowestLatency

  const COUNTER_LIMIT: nat := Numerals.U64_LIMIT

  /** Position of the first of the least keys. */
  function FirstMin(keys: seq<nat>): (p: nat)
    requires keys != []
    ensures p < |keys|
    ensures forall j :: 0 <= j < |keys| ==> keys[p] <= keys[j]
    ensures forall j :: 0 <= j < p ==> keys[p] < keys[j]
  {
    var n := |keys| - 1;
    if n == 0 then 0
    else
      var q := FirstMin(keys[..n]);
      if keys[n] < keys[q] then n else q
  }

  /** The chosen position among candidates with the given latencies, and the counter afterwards.
      A single candidate is chosen without touching the counter; a random draw is any number. */
  function Select(latencies: seq<nat>, strategy: Strategy, counter: nat, draw: nat): (r: (nat, nat))
    requires latencies != []
    ensures r.0 < |latencies|
  {
    var n := |latencies|;
    if n == 1 then (0, counter)
    else
      match strategy
      case RoundRobin => (counter % n, (counter + 1) % COUNTER_LIMIT)
      case Random => (draw % n, counter)
      case LowestLatency => (FirstMin(latencies), counter)
  }

  /** The positions chosen by m selections in a row among n candidates. */
  function Rounds(n: nat, counter: nat, m: nat): (picks: seq<nat>)
    requires n >= 2
    ensures |picks| == m
    decreases m
  {
    if m == 0 then []
    else
      var r := Select(seq(n, i => 0), RoundRobin, counter, 0);
      [r.0] + Rounds(n, r.1, m - 1)
  }

  function Occurrences(picks: seq<nat>, i: nat): nat {
    if picks == [] then 0 else (if picks[0] == i then 1 else 0) + Occurrences(picks[1..], i)
  }

  /** How many of the m numbers from start on leave remainder i. */
  function Hits(start: nat, m: nat, n: nat, i: nat): nat
    requires n > 0
    decreases m
  {
    if m == 0 then 0 else (if start % n == i then 1 else 0) + Hits(start + 1, m - 1, n, i)
  }

  /** Lowest latency chooses the first of the fastest candidates, also when there is only one, and
      leaves the counter alone. */
  lemma FastestIsChosen(latencies: seq<nat>, counter: nat, draw: nat, k: nat)
    requires k < |latencies|
    ensures
      var (p, c) := Select(latencies, LowestLatency, counter, draw);
      && c == counter
      && latencies[p] <= latencies[k]
      && (k < p ==> latencies[p] < latencies[k])
  {
  }

  lemma TakesTurns(latencies: seq<nat>, counter: nat)
    requires |latencies| >= 2 && counter < COUNTER_LIMIT
    ensures Select(latencies, RoundRobin, counter, 0).0 == counter % |latencies|
    ensures Select(latencies, RoundRobin, counter, 0).1 == if counter + 1 == COUNTER_LIMIT then 0 else counter + 1
  {
  }

  lemma OneRound(n: nat, counter: nat, m: nat)
    requires n >= 2 && m > 0 && counter + m <= COUNTER_LIMIT
    ensures m == 1 ==> Rounds(n, counter, m) == [counter % n]
    ensures m > 1 ==> Rounds(n, counter, m) == [counter % n] + Rounds(n, counter + 1, m - 1)
  {
    var candidates := seq(n, i => 0);
    TakesTurns(candidates, counter);
    assert Rounds(n, counter, m) ==
      [Select(candidates, RoundRobin, counter, 0).0] + Rounds(n, Select(candidates, RoundRobin, counter, 0).1, m - 1);
  }

  lemma OccurrencesCons(first: nat, rest: seq<nat>, i: nat)
    ensures Occurrences([first] + rest, i) == (if first == i then 1 else 0) + Occurrences(rest, i)
  {
    assert ([first] + rest)[1..] == rest;
  }

  lemma {:induction false} RoundsHit(n: nat, counter: nat, m: nat, i: nat)
    requires n >= 2 && counter + m <= COUNTER_LIMIT
    ensures Occurrences(Rounds(n, counter, m), i) == Hits(counter, m, n, i)
    decreases m
  {
    if m > 0 {
      OneRound(n, counter, m);
      if m == 1 {
        OccurrencesCons(counter % n, [], i);
        assert [counter % n] + [] == [counter % n];
      } else {
        OccurrencesCons(counter % n, Rounds(n, counter + 1, m - 1), i);
        RoundsHit(n, counter + 1, m - 1, i);
      }
    }
  }

  lemma {:induction false} HitsAdd(start: nat, a: nat, b: nat, n: nat, i: nat)
    requires n > 0
    ensures Hits(start, a + b, n, i) == Hits(start, a, n, i) + Hits(start + a, b, n, i)
    decreases a
  {
    if a > 0 {
      HitsAdd(start + 1, a - 1, b, n, i);
    }
  }

  lemma {:induction false} HitsFromZero(start: nat, m: nat, n: nat, i: nat)
    requires start + m == n && i < n && n > 0
    ensures Hits(start, m, n, i) == if start <= i then 1 else 0
    decreases m
  {
    if m > 0 {
      DivisionIs(start, n, 0, start);
      HitsFromZero(start + 1, m - 1, n, i);
    }
  }

  lemma MulStep(a: nat, b: nat, n: nat)
    requires a < b
    ensures a * n + n <= b * n
  {
    var more := b - a - 1;
    assert b == a + 1 + more;
    assert (a + 1 + more) * n == a * n + n + more * n;
    assert more * n >= 0;
  }

  lemma DivisionIs(k: nat, n: nat, q: nat, r: nat)
    requires n > 0 && r < n && k == q * n + r
    ensures k / n == q && k % n == r
  {
    var p := k / n;
    assert k == p * n + k % n;
    if p < q {
      MulStep(p, q, n);
    } else if q < p {
      MulStep(q, p, n);
    }
  }

  lemma OneCycleMore(k: nat, n: nat)
    requires n > 0
    ensures (k + n) / n == 1 + k / n && (k + n) % n == k % n
  {
    var q, r := k / n, k % n;
    assert k == q * n + r;
    assert k + n == (q + 1) * n + r;
    DivisionIs(k + n, n, q + 1, r);
  }

  /** Any n numbers in a row leave every remainder once. */
  lemma {:induction false} FullCycle(start: nat, n: nat, i: nat)
    requires i < n
    ensures Hits(start, n, n, i) == 1
  {
    if start == 0 {
      HitsFromZero(0, n, n, i);
    } else {
      var s := start - 1;
      FullCycle(s, n, i);
      HitsAdd(s, 1, n - 1, n, i);
      HitsAdd(start, n - 1, 1, n, i);
      OneCycleMore(s, n);
      assert Hits(s, 1, n, i) == Hits(start + (n - 1), 1, n, i);
    }
  }

  lemma {:induction false} HitsAreEven(start: nat, m: nat, n: nat, i: nat)
    requires i < n
    ensures m / n <= Hits(start, m, n, i) <= (m + n - 1) / n
    decreases m
  {
    if m < n {
      FullCycle(start, n, i);
      HitsAdd(start, m, n - m, n, i);
      DivisionIs(m, n, 0, m);
      if m > 0 {
        DivisionIs(m + n - 1, n, 1, m - 1);
      } else {
        DivisionIs(n - 1, n, 0, n - 1);
      }
    } else {
      FullCycle(start, n, i);
      HitsAdd(start, n, m - n, n, i);
      HitsAreEven(start + n, m - n, n, i);
      OneCycleMore(m - n, n);
      OneCycleMore(m - 1, n);
    }
  }

  /** Over any m selections in a row from n candidates during which the counter does not wrap,
      every candidate is chosen m/n times, rounded down or rounded up. */
  lemma RoundRobinIsFair(n: nat, counter: nat, m: nat, i: nat)
    requires n >= 2 && counter + m <= COUNTER_LIMIT && i < n
    ensures m / n <= Occurrences(Rounds(n, counter, m), i) <= (m + n - 1) / n
  {
    RoundsHit(n, counter, m, i);
    HitsAreEven(counter, m, n, i);
  }

  /** As many selections in a row as there are candidates choose every candidate once, from any
      counter that does not wrap meanwhile. */
  lemma OneCycleChoosesAll(n: nat, counter: nat, i: nat)
    requires n >= 2 && counter + n <= COUNTER_LIMIT && i < n
    ensures Occurrences(Rounds(n, counter, n), i) == 1
  {
    RoundsHit(n, counter, n, i);
    FullCycle(counter, n, i);
  }
}
