/** One upstream node as the object that requests and health checks update
    (src/upstream/client.rs, src/upstream/health.rs). */
module UpstreamClient {
  import opened RateLimiter
  import opened UpstreamHealth
  import Latency
  import Numerals

  datatype Role = Primary | Secondary | Fallback

  /** Everything about an upstream that decides how it is used. */
  datatype Upstream = Upstream(role: Role, health: Health, bucket: Bucket, latency: nat, retry: real)

  class Client {
    const role: Role
    const disabledRetryInterval: real
    const rateLimiter: Limiter
    var healthy: bool
    var disabled: bool
    var consecutiveFailures: nat
    var nextCheckAt: Time
    var httpErrorTimes: seq<Time>
    var latencyUs: nat

    ghost function HealthView(): Health
      reads this
    {
      Health(healthy, disabled, consecutiveFailures, nextCheckAt, httpErrorTimes)
    }

    ghost function View(): Upstream
      reads this, rateLimiter
    {
      Upstream(role, HealthView(), rateLimiter.View(), latencyUs, disabledRetryInterval)
    }

    constructor (role: Role, maxRps: nat, retry: real, now: Time)
      ensures fresh(rateLimiter)
      ensures View() == Upstream(role, NewHealth(now), NewBucket(maxRps, now), Latency.UNMEASURED, retry)
    {
      this.role := role;
      disabledRetryInterval := retry;
      rateLimiter := new Limiter(maxRps, now);
      healthy, disabled, consecutiveFailures, nextCheckAt, httpErrorTimes := true, false, 0, now, [];
      latencyUs := Latency.UNMEASURED;
    }

    method RecentErrors(now: Time) returns (kept: seq<Time>)
      ensures kept == Recent(httpErrorTimes, now)
    {
      kept := [];
      for i := 0 to |httpErrorTimes|
        invariant kept == Recent(httpErrorTimes[..i], now)
      {
        assert httpErrorTimes[..i + 1][..i] == httpErrorTimes[..i];
        if Elapsed(httpErrorTimes[i], now) < HTTP_ERROR_WINDOW {
          kept := kept + [httpErrorTimes[i]];
        }
      }
      assert httpErrorTimes[..|httpErrorTimes|] == httpErrorTimes;
    }

    method HasTooManyHttpErrors(now: Time) returns (tooMany: bool)
      modifies this`httpErrorTimes
      ensures HealthView() == Prune(old(HealthView()), now)
      ensures tooMany == TooManyHttpErrors(old(HealthView()), now)
    {
      httpErrorTimes := RecentErrors(now);
      tooMany := |httpErrorTimes| >= MAX_HTTP_ERRORS;
    }

    method RecordSuccess(now: Time)
      modifies this`healthy, this`disabled, this`consecutiveFailures, this`nextCheckAt, this`httpErrorTimes
      ensures HealthView() == UpstreamHealth.RecordSuccess(old(HealthView()), disabledRetryInterval, now)
    {
      consecutiveFailures := 0;
      if disabled {
        var tooMany := HasTooManyHttpErrors(now);
        if tooMany {
          nextCheckAt := now + disabledRetryInterval;
          return;
        }
        httpErrorTimes := [];
      }
      disabled := false;
      nextCheckAt := now;
    }

    method RecordFailure(now: Time)
      modifies this`healthy, this`disabled, this`consecutiveFailures, this`nextCheckAt, this`httpErrorTimes
      ensures HealthView() == UpstreamHealth.RecordFailure(old(HealthView()), disabledRetryInterval, now)
    {
      consecutiveFailures := (consecutiveFailures + 1) % U32_LIMIT;
      if consecutiveFailures >= MAX_CONSECUTIVE_FAILURES {
        disabled := true;
        healthy := false;
        nextCheckAt := now + disabledRetryInterval;
        return;
      }
      nextCheckAt := now + Backoff(consecutiveFailures);
    }

    method RecordHttpError(now: Time)
      modifies this`healthy, this`disabled, this`consecutiveFailures, this`nextCheckAt, this`httpErrorTimes
      ensures HealthView() == UpstreamHealth.RecordHttpError(old(HealthView()), disabledRetryInterval, now)
    {
      httpErrorTimes := httpErrorTimes + [now];
      httpErrorTimes := RecentErrors(now);
      if |httpErrorTimes| >= MAX_HTTP_ERRORS {
        disabled := true;
        healthy := false;
        nextCheckAt := now + disabledRetryInterval;
      }
    }

    method UpdateLatency(elapsedUs: nat)
      modifies this`latencyUs
      ensures latencyUs == Latency.Update(old(latencyUs), elapsedUs)
    {
      if latencyUs == Latency.UNMEASURED {
        latencyUs := elapsedUs;
      } else {
        latencyUs := (elapsedUs * 3 + latencyUs * 7) % Numerals.U64_LIMIT / 10;
      }
    }

    /** One iteration of the health-check loop, given how the check ends. */
    method HealthCheckTick(check: Check, now: Time)
      modifies this`healthy, this`disabled, this`consecutiveFailures, this`nextCheckAt, this`httpErrorTimes
      ensures HealthView() == Tick(old(HealthView()), check, disabledRetryInterval, now)
    {
      if now < nextCheckAt {
        return;
      }
      if check == Failed(true) {
        RecordHttpError(now);
      }
      if check.Passed? && disabled {
        var tooMany := HasTooManyHttpErrors(now);
        if tooMany {
          PruneTwice(old(httpErrorTimes), now);
          RecordSuccess(now);
          return;
        }
      }
      healthy := check.Passed?;
      if check.Passed? {
        RecordSuccess(now);
      } else {
        RecordFailure(now);
      }
    }
  }
}
