/**
 * The in-memory sliding-window rate limiter: per key, the timestamps of the
 * calls admitted during the last `period` seconds. Clock readings arrive as
 * `now`; the per-user key of the decorator is the session's correlation id.
 */
module RateLimiting {
  import opened Wrappers
  import opened Errors
  import opened Text

  /** The timestamps still inside the window: those strictly after `cutoff`, in their order. */
  function Recent(ts: seq<real>, cutoff: real): (r: seq<real>)
    ensures |r| <= |ts|
    ensures forall x :: x in r <==> x in ts && x > cutoff
    ensures forall i :: 0 <= i < |ts| && ts[i] > cutoff ==> ts[i] in r
  {
    if ts == [] then []
    else
      var rest := Recent(ts[1..], cutoff);
      assert forall x :: x in ts <==> x == ts[0] || x in ts[1..];
      if ts[0] > cutoff then [ts[0]] + rest else rest
  }

  predicate Sorted(ts: seq<real>) { forall i, j :: 0 <= i < j < |ts| ==> ts[i] <= ts[j] }

  /** Pruning keeps every order of the kept timestamps: a sorted history stays sorted. */
  lemma {:induction false} RecentKeepsSorted(ts: seq<real>, cutoff: real)
    requires Sorted(ts)
    ensures Sorted(Recent(ts, cutoff))
  {
    if ts != [] {
      RecentKeepsSorted(ts[1..], cutoff);
      var rest := Recent(ts[1..], cutoff);
      forall x | x in rest ensures ts[0] <= x {
        var k :| 0 <= k < |ts[1..]| && ts[1..][k] == x;
        assert ts[k + 1] == x;
      }
      if ts[0] > cutoff {
        var r := [ts[0]] + rest;
        forall i, j | 0 <= i < j < |r| ensures r[i] <= r[j] {
          assert r[j] == rest[j - 1] && rest[j - 1] in rest;
          if i > 0 {
            assert r[i] == rest[i - 1];
            assert 0 <= i - 1 < j - 1 < |rest|;
            assert rest[i - 1] <= rest[j - 1];
          } else {
            assert ts[0] <= rest[j - 1];
          }
        }
        assert Recent(ts, cutoff) == r;
      }
    }
  }

  /** The history of one key before a call, or the empty one the limiter creates for a new key. */
  function History(calls: map<string, seq<real>>, key: string): seq<real>
  {
    if key in calls then calls[key] else []
  }

  /** The verdict and the new history of one `is_allowed` decision. */
  datatype Decision = Decision(allowed: bool, history: seq<real>)

  function Decide(ts: seq<real>, maxCalls: int, period: int, now: real): (d: Decision)
    ensures var kept := Recent(ts, now - period as real);
      && d.allowed == (|kept| < maxCalls)
      && d.history == (if d.allowed then kept + [now] else kept)
  {
    var kept := Recent(ts, now - period as real);
    if |kept| >= maxCalls then Decision(false, kept) else Decision(true, kept + [now])
  }

  /** A key's history never grows past `max_calls` when every call uses the same positive limit. */
  lemma HistoryBounded(ts: seq<real>, maxCalls: int, period: int, now: real)
    requires maxCalls >= 1 && |ts| <= maxCalls
    ensures |Decide(ts, maxCalls, period, now).history| <= maxCalls
  {
  }

  /** A denied call leaves exactly the pruned history; an admitted one ends it with `now`. */
  lemma DeniedIffFull(ts: seq<real>, maxCalls: int, period: int, now: real)
    ensures var d := Decide(ts, maxCalls, period, now);
      && (!d.allowed <==> |Recent(ts, now - period as real)| >= maxCalls)
      && (d.allowed ==> d.history != [] && d.history[|d.history| - 1] == now && |d.history| <= maxCalls)
      && (!d.allowed ==> now !in d.history || now in ts)
  {
  }

  /** Every timestamp in the new history lies inside the window ending at `now`. */
  lemma HistoryInWindow(ts: seq<real>, maxCalls: int, period: int, now: real)
    requires period > 0
    ensures forall x :: x in Decide(ts, maxCalls, period, now).history ==> now - period as real < x
  {
  }

  class RateLimiter {
    var calls: map<string, seq<real>>

    constructor ()
      ensures calls == map[]
    {
      calls := map[];
    }

    /**
     * `is_allowed`: prune the key's history to the window, refuse when
     * `max_calls` timestamps remain, otherwise record `now`. No other key's
     * history changes.
     */
    method IsAllowed(key: string, maxCalls: int, period: int, now: real) returns (ok: bool)
      modifies this
      ensures var d := Decide(History(old(calls), key), maxCalls, period, now);
        ok == d.allowed && calls == old(calls)[key := d.history]
      ensures forall k :: k != key ==> (k in calls <==> k in old(calls)) && (k in calls ==> calls[k] == old(calls)[k])
    {
      if key !in calls {
        calls := calls[key := []];
      }
      var kept := Recent(calls[key], now - period as real);
      calls := calls[key := kept];
      if |kept| >= maxCalls {
        return false;
      }
      calls := calls[key := kept + [now]];
      return true;
    }
  }

  /** The decorator's message, `Rate limit exceeded: {max_calls} calls per {period}s`. */
  function ExceededMessage(maxCalls: int, period: int): string
  {
    "Rate limit exceeded: " + IntToString(maxCalls) + " calls per " + IntToString(period) + "s"
  }

  /**
   * `rate_limit(max_calls, period)` around a function `f`: the key is the
   * session's correlation id, or "anonymous"; a refused call raises
   * TooManyRequestsError instead of calling `f`.
   */
  method RateLimited<T>(limiter: RateLimiter, correlationId: Option<string>, maxCalls: int, period: int,
                        now: real, f: () -> T) returns (r: Result<T, Exc>)
    modifies limiter
    ensures var key := correlationId.GetOr("anonymous");
      var d := Decide(History(old(limiter.calls), key), maxCalls, period, now);
      && limiter.calls == old(limiter.calls)[key := d.history]
      && (d.allowed ==> r == Ok(f()))
      && (!d.allowed ==> r == Err(TooManyRequests(ExceededMessage(maxCalls, period))))
  {
    var key := correlationId.GetOr("anonymous");
    var ok := limiter.IsAllowed(key, maxCalls, period, now);
    if !ok {
      return Err(TooManyRequests(ExceededMessage(maxCalls, period)));
    }
    return Ok(f());
  }
}
