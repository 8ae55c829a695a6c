/** Health bookkeeping of one upstream as a value (src/upstream/client.rs), and one tick of its
    health-check loop (src/upstream/health.rs).  Methods are atomic steps that read one clock. */
module UpstreamHealth {
  import opened RateLimiter

  const BASE_BACKOFF: real := 10.0
  const MAX_BACKOFF: real := 600.0
  const MAX_CONSECUTIVE_FAILURES: nat := 6
  const MAX_HTTP_ERRORS: nat := 5
  const HTTP_ERROR_WINDOW: real := 3600.0
  const U32_LIMIT: nat := 0x1_0000_0000

  datatype Health = Health(
    healthy: bool,
    disabled: bool,
    failures: nat,
    nextCheck: Time,
    errors: seq<Time>)

  function NewHealth(now: Time): Health {
    Health(true, false, 0, now, [])
  }

  predicate IsHealthy(h: Health) {
    !h.disabled && h.healthy
  }

  predicate IsDueForCheck(h: Health, now: Time) {
    now >= h.nextCheck
  }

  /** The errors younger than the window, in order. */
  function Recent(errors: seq<Time>, now: Time): seq<Time> {
    if errors == [] then []
    else
      var rest := Recent(errors[..|errors| - 1], now);
      var t := errors[|errors| - 1];
      if Elapsed(t, now) < HTTP_ERROR_WINDOW then rest + [t] else rest
  }

  predicate TooManyHttpErrors(h: Health, now: Time) {
    |Recent(h.errors, now)| >= MAX_HTTP_ERRORS
  }

  function Prune(h: Health, now: Time): Health {
    h.(errors := Recent(h.errors, now))
  }

  function SetHealthy(h: Health, healthy: bool): Health {
    h.(healthy := healthy)
  }

  function Pow2(n: nat): nat {
    if n == 0 then 1 else 2 * Pow2(n - 1)
  }

  /** The delay after a failure that leaves the given count; the shift distance is taken
      modulo 32, and a count that wrapped to zero is treated like one. */
  function Backoff(failures: nat): real {
    Min(BASE_BACKOFF * Pow2((if failures == 0 then 0 else failures - 1) % 32) as real, MAX_BACKOFF)
  }

  /** A success resets the count; a disabled upstream is enabled again unless too many errors
      are still in the window. */
  function RecordSuccess(h: Health, retry: real, now: Time): Health {
    if h.disabled then
      if TooManyHttpErrors(h, now) then
        Prune(h, now).(failures := 0, nextCheck := now + retry)
      else
        h.(failures := 0, errors := [], disabled := false, nextCheck := now)
    else
      h.(failures := 0, nextCheck := now)
  }

  /** A failure counts up, modulo 2^32; from the sixth on the upstream is disabled. */
  function RecordFailure(h: Health, retry: real, now: Time): Health {
    var failures := (h.failures + 1) % U32_LIMIT;
    if failures >= MAX_CONSECUTIVE_FAILURES then
      h.(failures := failures, disabled := true, healthy := false, nextCheck := now + retry)
    else
      h.(failures := failures, nextCheck := now + Backoff(failures))
  }

  /** An HTTP error is remembered; five within the window disable the upstream. */
  function RecordHttpError(h: Health, retry: real, now: Time): Health {
    var g := Prune(h.(errors := h.errors + [now]), now);
    if |g.errors| >= MAX_HTTP_ERRORS then
      g.(disabled := true, healthy := false, nextCheck := now + retry)
    else g
  }

  /** How a health check ends: a usable block height, an answer of another form, or an error
      that may also count as an HTTP error. */
  datatype Check = Passed | Malformed | Failed(httpError: bool)

  /** One iteration of the health-check loop. */
  function Tick(h: Health, check: Check, retry: real, now: Time): Health {
    if !IsDueForCheck(h, now) then h
    else
      var g := if check == Failed(true) then RecordHttpError(h, retry, now) else h;
      if check.Passed? && g.disabled && TooManyHttpErrors(g, now) then
        RecordSuccess(Prune(g, now), retry, now)
      else
        var g := SetHealthy(if check.Passed? && g.disabled then Prune(g, now) else g, check.Passed?);
        if check.Passed? then RecordSuccess(g, retry, now) else RecordFailure(g, retry, now)
  }

  // ---------- runs ----------

  datatype Op =
    | Success
    | Failure
    | HttpError
    | Query
    | HealthCheck(check: Check)

  datatype Event = Event(op: Op, now: Time)

  function Step(h: Health, e: Event, retry: real): Health {
    match e.op
    case Success => RecordSuccess(h, retry, e.now)
    case Failure => RecordFailure(h, retry, e.now)
    case HttpError => RecordHttpError(h, retry, e.now)
    case Query => Prune(h, e.now)
    case HealthCheck(check) => Tick(h, check, retry, e.now)
  }

  function Run(h: Health, events: seq<Event>, retry: real): Health {
    if events == [] then h
    else Step(Run(h, events[..|events| - 1], retry), events[|events| - 1], retry)
  }

  predicate InOrder(start: Time, events: seq<Event>) {
    && (forall i :: 0 <= i < |events| ==> start <= events[i].now)
    && (forall i, j :: 0 <= i <= j < |events| ==> events[i].now <= events[j].now)
  }

  function Clock(start: Time, events: seq<Event>): Time {
    if events == [] then start else events[|events| - 1].now
  }

  // ---------- the reference: the same machine with an error history that is never pruned ----------

  /** Every error since the list was last cleared, whatever its age. */
  function FullHistory(h: Health, e: Event, retry: real): seq<Time>
  {
    match e.op
    case HttpError => h.errors + [e.now]
    case HealthCheck(Failed(true)) => if IsDueForCheck(h, e.now) then h.errors + [e.now] else h.errors
    case Success =>
      if h.disabled && !TooManyHttpErrors(h, e.now) then [] else h.errors
    case HealthCheck(Passed) =>
      if IsDueForCheck(h, e.now) && h.disabled && !TooManyHttpErrors(h, e.now) then [] else h.errors
    case _ => h.errors
  }

  /** A step of the reference: decides like the real machine on what it holds, but only ever
      appends to its history or clears it. */
  function ReferenceStep(h: Health, e: Event, retry: real): Health {
    Step(h, e, retry).(errors := FullHistory(h, e, retry))
  }

  function ReferenceRun(h: Health, events: seq<Event>, retry: real): Health {
    if events == [] then h
    else ReferenceStep(ReferenceRun(h, events[..|events| - 1], retry), events[|events| - 1], retry)
  }

  lemma {:induction false} RecentOfRecent(errors: seq<Time>, earlier: Time, now: Time)
    requires earlier <= now
    ensures Recent(Recent(errors, earlier), now) == Recent(errors, now)
  {
    if errors != [] {
      var n := |errors| - 1;
      RecentOfRecent(errors[..n], earlier, now);
      var rest := Recent(errors[..n], earlier);
      if Elapsed(errors[n], earlier) < HTTP_ERROR_WINDOW {
        assert (rest + [errors[n]])[..|rest|] == rest;
      }
    }
  }

  /** The errors that still count are exactly those less than an hour old. */
  lemma {:induction false} RecentAre(errors: seq<Time>, now: Time, t: Time)
    ensures multiset(Recent(errors, now))[t] == if now - t < 3600.0 then multiset(errors)[t] else 0
  {
    if errors != [] {
      var n := |errors| - 1;
      RecentAre(errors[..n], now, t);
      assert errors[..n] + [errors[n]] == errors;
    }
  }

  lemma RecentOfSnoc(errors: seq<Time>, t: Time, now: Time)
    ensures Recent(errors + [t], now)
         == if Elapsed(t, now) < HTTP_ERROR_WINDOW then Recent(errors, now) + [t] else Recent(errors, now)
  {
    assert (errors + [t])[..|errors|] == errors;
  }

  /** Same flags, count and next check, and the same recent errors from now on. */
  ghost predicate Agree(h: Health, g: Health, now: Time) {
    && h == g.(errors := h.errors)
    && forall later :: now <= later ==> Recent(h.errors, later) == Recent(g.errors, later)
  }

  lemma ErrorKeepsAgreement(h: Health, g: Health, now: Time, t: Time)
    requires Agree(h, g, now) && now <= t
    ensures forall later :: t <= later ==>
      Recent(Recent(h.errors + [t], t), later) == Recent(g.errors + [t], later)
  {
    forall later | t <= later
      ensures Recent(Recent(h.errors + [t], t), later) == Recent(g.errors + [t], later)
    {
      RecentOfRecent(h.errors + [t], t, later);
      RecentOfSnoc(h.errors, t, later);
      RecentOfSnoc(g.errors, t, later);
    }
  }

  lemma PruneKeepsAgreement(h: Health, g: Health, now: Time, t: Time)
    requires Agree(h, g, now) && now <= t
    ensures forall later :: t <= later ==> Recent(Recent(h.errors, t), later) == Recent(g.errors, later)
  {
    forall later | t <= later
      ensures Recent(Recent(h.errors, t), later) == Recent(g.errors, later)
    {
      RecentOfRecent(h.errors, t, later);
    }
  }

  lemma PruneTwice(errors: seq<Time>, now: Time)
    ensures Recent(Recent(errors, now), now) == Recent(errors, now)
  {
    RecentOfRecent(errors, now, now);
  }

  lemma ErrorAgrees(h: Health, g: Health, now: Time, t: Time, retry: real)
    requires Agree(h, g, now) && now <= t
    ensures Agree(RecordHttpError(h, retry, t), RecordHttpError(g, retry, t).(errors := g.errors + [t]), t)
  {
    ErrorKeepsAgreement(h, g, now, t);
    PruneTwice(h.errors + [t], t);
  }

  lemma SuccessAgrees(h: Health, g: Health, now: Time, t: Time, retry: real)
    requires Agree(h, g, now) && now <= t
    ensures
      var cleared := if g.disabled && !TooManyHttpErrors(g, t) then [] else g.errors;
      Agree(RecordSuccess(h, retry, t), RecordSuccess(g, retry, t).(errors := cleared), t)
  {
    PruneKeepsAgreement(h, g, now, t);
  }

  lemma FailureAgrees(h: Health, g: Health, now: Time, t: Time, retry: real)
    requires Agree(h, g, now) && now <= t
    ensures Agree(RecordFailure(h, retry, t), RecordFailure(g, retry, t), t)
    ensures RecordFailure(g, retry, t).errors == g.errors
  {
  }

  lemma TickFailed(h: Health, check: Check, retry: real, now: Time)
    requires IsDueForCheck(h, now) && !check.Passed?
    ensures Tick(h, check, retry, now)
         == RecordFailure(SetHealthy(if check == Failed(true) then RecordHttpError(h, retry, now) else h, false), retry, now)
  {
  }

  lemma TickPassed(h: Health, retry: real, now: Time)
    requires IsDueForCheck(h, now)
    ensures
      var stays := h.disabled && TooManyHttpErrors(h, now);
      var g := if h.disabled then Prune(h, now) else h;
      Tick(h, Passed, retry, now) == RecordSuccess(if stays then g else SetHealthy(g, true), retry, now)
  {
  }

  lemma FailureIgnoresErrors(h: Health, errors: seq<Time>, retry: real, now: Time)
    ensures RecordFailure(SetHealthy(h.(errors := errors), false), retry, now)
         == RecordFailure(SetHealthy(h, false), retry, now).(errors := errors)
  {
  }

  lemma FailedTicksAgree(h: Health, g: Health, now: Time, check: Check, t: Time, retry: real)
    requires Agree(h, g, now) && now <= t && IsDueForCheck(h, t) && !check.Passed?
    ensures Agree(Tick(h, check, retry, t), ReferenceStep(g, Event(HealthCheck(check), t), retry), t)
  {
    TickFailed(h, check, retry, t);
    TickFailed(g, check, retry, t);
    if check == Failed(true) {
      ErrorAgrees(h, g, now, t, retry);
      var h1, g1 := RecordHttpError(h, retry, t), RecordHttpError(g, retry, t);
      FailureIgnoresErrors(g1, g.errors + [t], retry, t);
      FailureAgrees(SetHealthy(h1, false), SetHealthy(g1.(errors := g.errors + [t]), false), t, t, retry);
    } else {
      FailureAgrees(SetHealthy(h, false), SetHealthy(g, false), now, t, retry);
    }
  }

  lemma PassedTicksAgree(h: Health, g: Health, now: Time, t: Time, retry: real)
    requires Agree(h, g, now) && now <= t && IsDueForCheck(h, t)
    ensures Agree(Tick(h, Passed, retry, t), ReferenceStep(g, Event(HealthCheck(Passed), t), retry), t)
  {
    TickPassed(h, retry, t);
    TickPassed(g, retry, t);
    PruneTwice(h.errors, t);
    PruneTwice(g.errors, t);
    PruneKeepsAgreement(h, g, now, t);
  }

  lemma StepsAgree(h: Health, g: Health, now: Time, e: Event, retry: real)
    requires Agree(h, g, now) && now <= e.now
    ensures Agree(Step(h, e, retry), ReferenceStep(g, e, retry), e.now)
  {
    match e.op
    case Success => SuccessAgrees(h, g, now, e.now, retry);
    case Failure => FailureAgrees(h, g, now, e.now, retry);
    case HttpError => ErrorAgrees(h, g, now, e.now, retry);
    case Query => PruneKeepsAgreement(h, g, now, e.now);
    case HealthCheck(check) =>
      if IsDueForCheck(h, e.now) {
        if check.Passed? {
          PassedTicksAgree(h, g, now, e.now, retry);
        } else {
          FailedTicksAgree(h, g, now, check, e.now, retry);
        }
      }
  }

  /** Pruning never changes a decision: after every run the upstream has the flags, the failure
      count and the next check of the machine that forgets no error, and at every later time both
      hold the same errors within the window. */
  lemma {:induction false} PruningIsInvisible(start: Time, events: seq<Event>, retry: real)
    requires InOrder(start, events)
    ensures Agree(Run(NewHealth(start), events, retry), ReferenceRun(NewHealth(start), events, retry),
                  Clock(start, events))
  {
    var n := |events| - 1;
    if n >= 0 {
      PruningIsInvisible(start, events[..n], retry);
      StepsAgree(Run(NewHealth(start), events[..n], retry), ReferenceRun(NewHealth(start), events[..n], retry),
                 Clock(start, events[..n]), events[n], retry);
    }
  }

  lemma {:induction false} RecentShrinks(errors: seq<Time>, now: Time, later: Time)
    requires now <= later
    ensures |Recent(errors, later)| <= |Recent(errors, now)|
  {
    if errors != [] {
      RecentShrinks(errors[..|errors| - 1], now, later);
    }
  }

  /** What holds between steps. */
  predicate Safe(h: Health, now: Time) {
    && (h.disabled ==> !h.healthy)
    && (!h.disabled ==> h.failures < MAX_CONSECUTIVE_FAILURES && |Recent(h.errors, now)| < MAX_HTTP_ERRORS)
  }

  lemma ErrorKeepsSafe(h: Health, t: Time, retry: real)
    requires Safe(h, t)
    ensures Safe(RecordHttpError(h, retry, t), t)
  {
    PruneTwice(h.errors + [t], t);
  }

  lemma SuccessKeepsSafe(h: Health, t: Time, retry: real)
    requires h.disabled && TooManyHttpErrors(h, t) ==> !h.healthy
    requires !h.disabled ==> |Recent(h.errors, t)| < MAX_HTTP_ERRORS
    ensures Safe(RecordSuccess(h, retry, t), t)
  {
    PruneTwice(h.errors, t);
  }

  lemma FailureKeepsSafe(h: Health, t: Time, retry: real)
    requires Safe(h, t)
    ensures Safe(RecordFailure(h, retry, t), t)
  {
  }

  lemma StepKeepsSafe(h: Health, now: Time, e: Event, retry: real)
    requires Safe(h, now) && now <= e.now
    ensures Safe(Step(h, e, retry), e.now)
  {
    RecentShrinks(h.errors, now, e.now);
    PruneTwice(h.errors, e.now);
    match e.op
    case Success => SuccessKeepsSafe(h, e.now, retry);
    case Failure => FailureKeepsSafe(h, e.now, retry);
    case HttpError => ErrorKeepsSafe(h, e.now, retry);
    case Query =>
    case HealthCheck(check) =>
      if IsDueForCheck(h, e.now) {
        if check.Passed? {
          TickPassed(h, retry, e.now);
          var g := if h.disabled then Prune(h, e.now) else h;
          SuccessKeepsSafe(if h.disabled && TooManyHttpErrors(h, e.now) then g else SetHealthy(g, true), e.now, retry);
        } else {
          TickFailed(h, check, retry, e.now);
          ErrorKeepsSafe(h, e.now, retry);
          FailureKeepsSafe(
            SetHealthy(if check == Failed(true) then RecordHttpError(h, retry, e.now) else h, false), e.now, retry);
        }
      }
  }

  /** After every run and at every later time, an enabled upstream has fewer than six consecutive
      failures and fewer than five errors within the window, counted over the history that was
      never pruned; and a disabled upstream is never healthy. */
  lemma {:induction false} EnabledIsSafe(start: Time, events: seq<Event>, retry: real, later: Time)
    requires InOrder(start, events) && Clock(start, events) <= later
    ensures
      var h, full := Run(NewHealth(start), events, retry), ReferenceRun(NewHealth(start), events, retry);
      && (!h.disabled ==> h.failures < MAX_CONSECUTIVE_FAILURES && |Recent(full.errors, later)| < MAX_HTTP_ERRORS)
      && (h.disabled ==> !IsHealthy(h) && !h.healthy)
  {
    RunIsSafe(start, events, retry);
    PruningIsInvisible(start, events, retry);
    RecentShrinks(Run(NewHealth(start), events, retry).errors, Clock(start, events), later);
  }

  lemma {:induction false} RunIsSafe(start: Time, events: seq<Event>, retry: real)
    requires InOrder(start, events)
    ensures Safe(Run(NewHealth(start), events, retry), Clock(start, events))
  {
    var n := |events| - 1;
    if n >= 0 {
      RunIsSafe(start, events[..n], retry);
      StepKeepsSafe(Run(NewHealth(start), events[..n], retry), Clock(start, events[..n]), events[n], retry);
    }
  }

  // ---------- backing off, disabling, recovering ----------

  /** The k-th failure in a row, k < 6, waits 10 * 2^(k-1) seconds: at most 160, so the cap of
      600 seconds is never reached. */
  lemma BackoffDoubles(k: nat)
    requires 1 <= k < MAX_CONSECUTIVE_FAILURES
    ensures Backoff(k) == 10.0 * Pow2(k - 1) as real
    ensures Backoff(k) <= 160.0 < MAX_BACKOFF
    ensures k > 1 ==> Backoff(k) == 2.0 * Backoff(k - 1)
  {
    assert Pow2(0) == 1 && Pow2(1) == 2 && Pow2(2) == 4 && Pow2(3) == 8 && Pow2(4) == 16;
  }

  /** A step that is not a success: a failed request, an HTTP error, a query, or a health check
      that is not due or does not pass. */
  predicate NoSuccess(h: Health, e: Event) {
    !e.op.Success? && !(e.op.HealthCheck? && e.op.check.Passed? && IsDueForCheck(h, e.now))
  }

  predicate CountsAsFailure(h: Health, e: Event) {
    e.op.Failure? || (e.op.HealthCheck? && !e.op.check.Passed? && IsDueForCheck(h, e.now))
  }

  predicate NoSuccessIn(h: Health, events: seq<Event>, retry: real) {
    events == [] ||
    (&& NoSuccessIn(h, events[..|events| - 1], retry)
     && NoSuccess(Run(h, events[..|events| - 1], retry), events[|events| - 1]))
  }

  function FailuresIn(h: Health, events: seq<Event>, retry: real): nat {
    if events == [] then 0
    else
      FailuresIn(h, events[..|events| - 1], retry)
      + if CountsAsFailure(Run(h, events[..|events| - 1], retry), events[|events| - 1]) then 1 else 0
  }

  lemma NoSuccessStep(h: Health, e: Event, retry: real)
    requires NoSuccess(h, e)
    ensures
      var g := Step(h, e, retry);
      && g.failures == (if CountsAsFailure(h, e) then (h.failures + 1) % U32_LIMIT else h.failures)
      && (h.disabled ==> g.disabled)
      && (CountsAsFailure(h, e) && g.failures >= MAX_CONSECUTIVE_FAILURES ==> g.disabled)
  {
    if e.op.HealthCheck? && IsDueForCheck(h, e.now) {
      TickFailed(h, e.op.check, retry, e.now);
    }
  }

  /** Counting in 32 bits. */
  function Counted(total: nat): nat {
    if total == 0 then 0 else (Counted(total - 1) + 1) % U32_LIMIT
  }

  lemma {:induction false} CountedIs(total: nat)
    ensures Counted(total) == total % U32_LIMIT
  {
    if total > 0 {
      CountedIs(total - 1);
    }
  }

  /** Where an upstream that started as h stands after so many failures and no success, counting
      its own: the count wraps at 2^32, being disabled does not. */
  predicate HasFailed(h: Health, g: Health, total: nat) {
    && g.failures == Counted(total)
    && (h.disabled ==> g.disabled)
    && (total >= MAX_CONSECUTIVE_FAILURES ==> g.disabled)
  }

  lemma SmallCount(total: nat)
    requires total < U32_LIMIT
    ensures total % U32_LIMIT == total
  {
  }

  lemma OneFailureMore(h: Health, g: Health, total: nat, e: Event, retry: real)
    requires HasFailed(h, g, total) && NoSuccess(g, e)
    ensures HasFailed(h, Step(g, e, retry), if CountsAsFailure(g, e) then total + 1 else total)
  {
    NoSuccessStep(g, e, retry);
    if total + 1 == MAX_CONSECUTIVE_FAILURES {
      CountedIs(total + 1);
      SmallCount(total + 1);
    }
  }

  /** The last of a run of failures. */
  lemma LastFailure(h: Health, events: seq<Event>, retry: real) returns (g: Health, total: nat, e: Event)
    requires NoSuccessIn(h, events, retry) && events != []
    ensures g == Run(h, events[..|events| - 1], retry) && NoSuccessIn(h, events[..|events| - 1], retry)
    ensures total == h.failures + FailuresIn(h, events[..|events| - 1], retry)
    ensures NoSuccess(g, e) && Run(h, events, retry) == Step(g, e, retry)
    ensures h.failures + FailuresIn(h, events, retry) == if CountsAsFailure(g, e) then total + 1 else total
  {
    var before := events[..|events| - 1];
    g, total, e := Run(h, before, retry), h.failures + FailuresIn(h, before, retry), events[|events| - 1];
  }

  lemma {:induction false} FailuresAreCounted(h: Health, events: seq<Event>, retry: real, g: Health, total: nat)
    requires NoSuccessIn(h, events, retry) && HasFailed(h, h, h.failures)
    requires g == Run(h, events, retry) && total == h.failures + FailuresIn(h, events, retry)
    ensures HasFailed(h, g, total)
    decreases |events|
  {
    if events != [] {
      var before, count, e := LastFailure(h, events, retry);
      FailuresAreCounted(h, events[..|events| - 1], retry, before, count);
      assert g == Step(before, e, retry) && total == if CountsAsFailure(before, e) then count + 1 else count;
      OneFailureMore(h, before, count, e, retry);
    }
  }

  /** Without a success in between, failures add up, modulo 2^32 (CountedIs); from the sixth on the
      upstream is disabled and stays disabled, also when the count wraps. */
  lemma SixFailuresDisable(h: Health, events: seq<Event>, retry: real)
    requires NoSuccessIn(h, events, retry)
    requires h.failures < U32_LIMIT && (h.failures >= MAX_CONSECUTIVE_FAILURES ==> h.disabled)
    ensures
      var g, total := Run(h, events, retry), h.failures + FailuresIn(h, events, retry);
      HasFailed(h, g, total)
  {
    StartsCounted(h);
    var g, total := Run(h, events, retry), h.failures + FailuresIn(h, events, retry);
    FailuresAreCounted(h, events, retry, g, total);
    assert HasFailed(h, g, total);
  }

  lemma StartsCounted(h: Health)
    requires h.failures < U32_LIMIT && (h.failures >= MAX_CONSECUTIVE_FAILURES ==> h.disabled)
    ensures HasFailed(h, h, h.failures)
  {
    SmallCount(h.failures);
    CountedIs(h.failures);
  }

  /** A due check that fails as the k-th failure in a row, k < 6, is followed by the next check
      exactly 10 * 2^(k-1) seconds later, whether or not its HTTP error disabled the upstream;
      from the sixth failure on the upstream is disabled for the configured interval. */
  lemma FailingCheckReschedules(h: Health, check: Check, retry: real, now: Time)
    requires IsDueForCheck(h, now) && !check.Passed?
    ensures
      var g, k := Tick(h, check, retry, now), (h.failures + 1) % U32_LIMIT;
      && g.failures == k && !g.healthy
      && (k == 0 ==> g.nextCheck == now + 10.0)
      && (1 <= k < MAX_CONSECUTIVE_FAILURES ==> g.nextCheck == now + 10.0 * Pow2(k - 1) as real)
      && (k >= MAX_CONSECUTIVE_FAILURES ==> g.disabled && g.nextCheck == now + retry)
  {
    var k := (h.failures + 1) % U32_LIMIT;
    TickFailed(h, check, retry, now);
    if 1 <= k < MAX_CONSECUTIVE_FAILURES {
      BackoffDoubles(k);
    }
  }

  /** A passing due check leaves no failures.  It makes an enabled upstream healthy and leaves its
      errors.  It re-enables a disabled upstream, healthy and with no errors held, if and only if fewer
      than five errors are within the window; otherwise the upstream stays disabled until the next
      retry. */
  lemma RecoveryIff(h: Health, retry: real, now: Time)
    requires IsDueForCheck(h, now)
    ensures
      var g := Tick(h, Passed, retry, now);
      && g.failures == 0
      && (!h.disabled ==> IsHealthy(g) && g.nextCheck == now && g.errors == h.errors)
      && (h.disabled ==> (IsHealthy(g) <==> |Recent(h.errors, now)| < MAX_HTTP_ERRORS))
      && (h.disabled && IsHealthy(g) ==> g.errors == [] && g.nextCheck == now)
      && (h.disabled && !IsHealthy(g) ==>
            g.disabled && g.nextCheck == now + retry && g.errors == Recent(h.errors, now))
  {
    PruneTwice(h.errors, now);
  }

  /** A successful request leaves no failures.  It enables a disabled upstream, with no errors held, if
      and only if fewer than five errors are within the window, and in any case leaves it as healthy as
      it was.  An enabled upstream is due for its next check at once, a disabled one at the next
      retry. */
  lemma SuccessIff(h: Health, retry: real, now: Time)
    ensures
      var g := RecordSuccess(h, retry, now);
      && g.failures == 0 && g.healthy == h.healthy
      && (g.disabled <==> h.disabled && |Recent(h.errors, now)| >= MAX_HTTP_ERRORS)
      && g.nextCheck == (if g.disabled then now + retry else now)
      && g.errors == (if !h.disabled then h.errors else if g.disabled then Recent(h.errors, now) else [])
  {
  }

  /** An HTTP error is added to those within the window.  It disables the upstream, until the configured
      interval is over, if it is at least the fifth, and otherwise changes nothing else. */
  lemma HttpErrorIs(h: Health, retry: real, now: Time)
    ensures
      var g := RecordHttpError(h, retry, now);
      && g.errors == Recent(h.errors, now) + [now] && g.failures == h.failures
      && (if |g.errors| >= MAX_HTTP_ERRORS then g.disabled && !g.healthy && g.nextCheck == now + retry
          else g.disabled == h.disabled && g.healthy == h.healthy && g.nextCheck == h.nextCheck)
  {
    RecentOfSnoc(h.errors, now, now);
  }

  /** A check happens exactly from the time on for which it is due: before, nothing changes; then a pass
      clears the failures, and anything else adds one and makes the upstream unhealthy. */
  lemma ChecksAreOnTime(h: Health, check: Check, retry: real, now: Time)
    ensures
      var g := Tick(h, check, retry, now);
      if now < h.nextCheck then g == h
      else if check.Passed? then g.failures == 0
      else g.failures == (h.failures + 1) % U32_LIMIT && !g.healthy
  {
    if now >= h.nextCheck {
      if check.Passed? {
        RecoveryIff(h, retry, now);
      } else {
        FailingCheckReschedules(h, check, retry, now);
      }
    }
  }

  /** In every run only a passing due check makes an upstream usable again: a request that succeeds
      does not. */
  lemma UsableAgainIff(start: Time, events: seq<Event>, e: Event, retry: real)
    requires InOrder(start, events) && !IsHealthy(Run(NewHealth(start), events, retry))
    ensures
      var h := Run(NewHealth(start), events, retry);
      IsHealthy(Run(NewHealth(start), events + [e], retry)) <==>
        && e.op == HealthCheck(Passed) && IsDueForCheck(h, e.now)
        && (h.disabled ==> |Recent(h.errors, e.now)| < MAX_HTTP_ERRORS)
  {
    var h := Run(NewHealth(start), events, retry);
    RunIsSafe(start, events, retry);
    RunOneMore(NewHealth(start), events, e, retry);
    if e.op.HealthCheck? && IsDueForCheck(h, e.now) {
      if e.op.check.Passed? {
        RecoveryIff(h, retry, e.now);
      } else {
        FailingCheckReschedules(h, e.op.check, retry, e.now);
      }
    }
  }

  /** So an upstream that is not usable stays so as long as no health check passes, whatever requests
      do. */
  lemma {:induction false} StaysUnusable(start: Time, events: seq<Event>, more: seq<Event>, retry: real)
    requires InOrder(start, events + more) && !IsHealthy(Run(NewHealth(start), events, retry))
    requires forall k :: 0 <= k < |more| ==> more[k].op != HealthCheck(Passed)
    ensures !IsHealthy(Run(NewHealth(start), events + more, retry))
  {
    if more == [] {
      assert events + more == events;
    } else {
      var n := |more| - 1;
      assert events + more == events + more[..n] + [more[n]];
      assert forall k :: 0 <= k < |events + more[..n]| ==> (events + more[..n])[k] == (events + more)[k];
      StaysUnusable(start, events, more[..n], retry);
      UsableAgainIff(start, events + more[..n], more[n], retry);
    }
  }

  // ---------- when a disabled upstream is left alone for the configured interval ----------

  predicate HonoursRetry(h: Health, now: Time, retry: real) {
    h.disabled ==> h.nextCheck >= now + retry
  }

  /** One more failure is the sixth or a later one, or its backoff is no shorter than the interval. */
  predicate BacksOffLong(failures: nat, retry: real) {
    var k := (failures + 1) % U32_LIMIT;
    k >= MAX_CONSECUTIVE_FAILURES || Backoff(k) >= retry
  }

  /** One more HTTP error is at least the fifth within the window. */
  predicate OneErrorShort(h: Health, now: Time) {
    |Recent(h.errors, now)| + 1 >= MAX_HTTP_ERRORS
  }

  /** A failure, after an HTTP error or not, writes the next check over the one that disabling set.
      So the upstream is left alone for the configured interval, if it is disabled, exactly when the
      failure backs off long enough, or the upstream was enabled and no fifth error disabled it. */
  lemma FailureHonoursRetryIff(h: Health, httpError: bool, retry: real, now: Time)
    ensures HonoursRetry(RecordFailure(if httpError then RecordHttpError(h, retry, now) else h, retry, now), now, retry)
       <==> BacksOffLong(h.failures, retry) || (!h.disabled && !(httpError && OneErrorShort(h, now)))
  {
    RecentOfSnoc(h.errors, now, now);
  }

  /** The same for a due health check; one that passes always honours the interval. */
  lemma CheckHonoursRetryIff(h: Health, check: Check, retry: real, now: Time)
    requires IsDueForCheck(h, now)
    ensures HonoursRetry(Tick(h, check, retry, now), now, retry)
       <==> check.Passed? || BacksOffLong(h.failures, retry)
            || (!h.disabled && !(check == Failed(true) && OneErrorShort(h, now)))
  {
    if check.Passed? {
      TickPassed(h, retry, now);
    } else {
      TickFailed(h, check, retry, now);
      FailureHonoursRetryIff(h, check == Failed(true), retry, now);
    }
  }

  lemma RunOneMore(h: Health, events: seq<Event>, e: Event, retry: real)
    ensures Run(h, events + [e], retry) == Step(Run(h, events, retry), e, retry)
  {
    assert (events + [e])[..|events|] == events;
  }

  lemma {:induction false} RunAppend(h: Health, first: seq<Event>, second: seq<Event>, retry: real)
    ensures Run(h, first + second, retry) == Run(Run(h, first, retry), second, retry)
  {
    if second == [] {
      assert first + second == first;
    } else {
      var n := |second| - 1;
      RunAppend(h, first, second[..n], retry);
      assert first + second == first + second[..n] + [second[n]];
      RunOneMore(h, first + second[..n], second[n], retry);
      RunOneMore(Run(h, first, retry), second[..n], second[n], retry);
      assert second[..n] + [second[n]] == second;
    }
  }

  lemma {:induction false} NowIsRecent(n: nat, now: Time)
    ensures Recent(seq(n, i => now), now) == seq(n, i => now)
  {
    if n == 0 {
      assert seq(n, i => now) == [];
    } else {
      NowIsRecent(n - 1, now);
      RecentOfSnoc(seq(n - 1, i => now), now, now);
      assert seq(n - 1, i => now) + [now] == seq(n, i => now);
    }
  }
}
