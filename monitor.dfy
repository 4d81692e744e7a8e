/**
 * The MCP server monitor: five event counters, statistics derived from
 * them, and a health check that runs at most every 30 seconds unless forced.
 * Clock readings are passed in as `now`.
 */
module Monitor {

  const HealthCheckInterval: real := 30.0

  datatype Stats = Stats(
    uptimeSeconds: real,
    uptimeMinutes: real,
    totalCalls: nat,
    successfulCalls: nat,
    failedCalls: nat,
    timeoutCalls: nat,
    serverRestarts: nat,
    successRatePercent: real,
    callsPerMinute: real)

  /** `success_count / call_count * 100`, or 0 before the first call. */
  function SuccessRate(calls: nat, successes: nat): (r: real)
    ensures calls == 0 ==> r == 0.0
    ensures calls > 0 ==> r * calls as real == 100.0 * successes as real
  {
    if calls > 0 then successes as real / calls as real * 100.0 else 0.0
  }

  /** The verdict of a health check that actually runs: a low success rate over more than five calls, or more than three restarts, is unhealthy. */
  predicate HealthyCounters(calls: nat, successes: nat, restarts: nat)
  {
    !((SuccessRate(calls, successes) < 50.0 && calls > 5) || restarts > 3)
  }

  lemma RateBelowHalf(c: real, s: real)
    requires c > 0.0
    ensures s / c * 100.0 < 50.0 <==> 2.0 * s < c
  {
    var q := s / c;
    assert q * c == s;
    if q < 0.5 {
      assert (0.5 - q) * c > 0.0;
    } else {
      assert (q - 0.5) * c >= 0.0;
    }
  }

  /** The rate condition in whole numbers: below 50 percent means fewer than half the calls succeeded. */
  lemma HealthyCountersIntegral(calls: nat, successes: nat, restarts: nat)
    ensures HealthyCounters(calls, successes, restarts)
        <==> (calls <= 5 || 2 * successes >= calls) && restarts <= 3
  {
    if calls > 0 {
      RateBelowHalf(calls as real, successes as real);
    }
  }

  class ServerMonitor {
    var startTime: real
    var callCount: nat
    var successCount: nat
    var failureCount: nat
    var timeoutCount: nat
    var restartCount: nat
    var lastHealthCheck: real

    constructor (now: real)
      ensures startTime == now && lastHealthCheck == 0.0
      ensures callCount == 0 && successCount == 0 && failureCount == 0
      ensures timeoutCount == 0 && restartCount == 0
    {
      startTime := now;
      callCount, successCount, failureCount, timeoutCount, restartCount := 0, 0, 0, 0, 0;
      lastHealthCheck := 0.0;
    }

    method LogCallStart()
      modifies this
      ensures callCount == old(callCount) + 1
      ensures successCount == old(successCount) && failureCount == old(failureCount)
      ensures timeoutCount == old(timeoutCount) && restartCount == old(restartCount)
      ensures startTime == old(startTime) && lastHealthCheck == old(lastHealthCheck)
    {
      callCount := callCount + 1;
    }

    method LogCallSuccess()
      modifies this
      ensures successCount == old(successCount) + 1
      ensures callCount == old(callCount) && failureCount == old(failureCount)
      ensures timeoutCount == old(timeoutCount) && restartCount == old(restartCount)
      ensures startTime == old(startTime) && lastHealthCheck == old(lastHealthCheck)
    {
      successCount := successCount + 1;
    }

    method LogCallFailure()
      modifies this
      ensures failureCount == old(failureCount) + 1
      ensures callCount == old(callCount) && successCount == old(successCount)
      ensures timeoutCount == old(timeoutCount) && restartCount == old(restartCount)
      ensures startTime == old(startTime) && lastHealthCheck == old(lastHealthCheck)
    {
      failureCount := failureCount + 1;
    }

    method LogCallTimeout()
      modifies this
      ensures timeoutCount == old(timeoutCount) + 1
      ensures callCount == old(callCount) && successCount == old(successCount)
      ensures failureCount == old(failureCount) && restartCount == old(restartCount)
      ensures startTime == old(startTime) && lastHealthCheck == old(lastHealthCheck)
    {
      timeoutCount := timeoutCount + 1;
    }

    method LogServerRestart()
      modifies this
      ensures restartCount == old(restartCount) + 1
      ensures callCount == old(callCount) && successCount == old(successCount)
      ensures failureCount == old(failureCount) && timeoutCount == old(timeoutCount)
      ensures startTime == old(startTime) && lastHealthCheck == old(lastHealthCheck)
    {
      restartCount := restartCount + 1;
    }

    /** The statistics record; it reads the counters and changes nothing. */
    method GetStats(now: real) returns (st: Stats)
      ensures st.totalCalls == callCount && st.successfulCalls == successCount
      ensures st.failedCalls == failureCount && st.timeoutCalls == timeoutCount
      ensures st.serverRestarts == restartCount
      ensures st.uptimeSeconds == now - startTime && st.uptimeMinutes * 60.0 == st.uptimeSeconds
      ensures callCount == 0 ==> st.successRatePercent == 0.0
      ensures callCount > 0 ==> st.successRatePercent * callCount as real == 100.0 * successCount as real
      ensures st.uptimeSeconds <= 0.0 ==> st.callsPerMinute == 0.0
      ensures st.uptimeSeconds > 0.0 ==> st.callsPerMinute * st.uptimeMinutes == callCount as real
    {
      var uptime := now - startTime;
      var perMinute := if uptime > 0.0 then callCount as real / (uptime / 60.0) else 0.0;
      st := Stats(uptime, uptime / 60.0, callCount, successCount, failureCount, timeoutCount,
                  restartCount, SuccessRate(callCount, successCount), perMinute);
    }

    /**
     * `health_check`: within 30 seconds of the previous run and not forced it
     * answers true and changes nothing; otherwise it records `now` and judges
     * the counters.
     */
    method HealthCheck(now: real, force: bool) returns (ok: bool)
      modifies this
      ensures !force && now - old(lastHealthCheck) < HealthCheckInterval ==> ok && lastHealthCheck == old(lastHealthCheck)
      ensures force || now - old(lastHealthCheck) >= HealthCheckInterval ==>
                lastHealthCheck == now && ok == HealthyCounters(callCount, successCount, restartCount)
      ensures callCount == old(callCount) && successCount == old(successCount)
      ensures failureCount == old(failureCount) && timeoutCount == old(timeoutCount)
      ensures restartCount == old(restartCount) && startTime == old(startTime)
    {
      if !force && now - lastHealthCheck < HealthCheckInterval {
        return true;
      }
      lastHealthCheck := now;
      var st := GetStats(now);
      if st.successRatePercent < 50.0 && st.totalCalls > 5 {
        return false;
      }
      if st.serverRestarts > 3 {
        return false;
      }
      return true;
    }
  }
}
