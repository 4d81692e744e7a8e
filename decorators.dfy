/**
 * The two decorators around Materials Project calls: an exception mapping
 * and a retry loop with capped exponential backoff. A decorated call is an
 * oracle: `attempts(k)` is what the k-th call of the wrapped function
 * returns or raises.
 */
module Decorators {
  import opened Wrappers
  import opened Errors
  import opened Arith

  /**
   * `AppConfig.RETRY_MAX_DELAY` when the environment variable is unset. The
   * variable is read once, through `int(...)`, so the cap is always an
   * integer; the retry functions below take that integer as `maxDelay`.
   */
  const DefaultRetryMaxDelay: int := 10

  /** The message of the ValueError `time.sleep` raises on a negative pause. */
  const NegativeSleep: string := "sleep length must be non-negative"

  /**
   * `mcp_error_handler`: a ConnectionError becomes ServiceUnavailableError,
   * a ValueError becomes ValidationError, and anything else (a return value
   * or another exception) passes through.
   */
  function HandleError<T>(outcome: Result<T, Exc>): (r: Result<T, Exc>)
    ensures outcome.Ok? ==> r == outcome
    ensures outcome.Err? && outcome.error.ConnectionError? ==>
              r == Err(ServiceUnavailable("Materials Project service unavailable"))
    ensures outcome.Err? && outcome.error.ValueError? ==> r == Err(ValidationError("Invalid input: " + outcome.error.msg))
    ensures outcome.Err? && !outcome.error.ConnectionError? && !outcome.error.ValueError? ==> r == outcome
    ensures r.Err? ==> !r.error.ConnectionError? && !r.error.ValueError?
  {
    match outcome
    case Ok(_) => outcome
    case Err(ConnectionError(_)) => Err(ServiceUnavailable("Materials Project service unavailable"))
    case Err(ValueError(m)) => Err(ValidationError("Invalid input: " + m))
    case Err(_) => outcome
  }

  /** `delay * 2**k`: the pause after failed attempt `k` before the cap applies. */
  function Uncapped(delay: real, k: nat): real
  {
    delay * Pow2(k) as real
  }

  /**
   * The pause after failed attempt `k`: `min(delay * 2**k, RETRY_MAX_DELAY)`,
   * where `maxDelay` is the integer read from RETRY_MAX_DELAY.
   */
  function Backoff(delay: real, maxDelay: int, k: nat): (w: real)
    ensures w <= maxDelay as real && w <= Uncapped(delay, k)
    ensures w == maxDelay as real || w == Uncapped(delay, k)
    ensures w >= 0.0 <==> !SleepFails(delay, maxDelay)
  {
    assert delay < 0.0 ==> Uncapped(delay, k) < 0.0;
    MinReal(Uncapped(delay, k), maxDelay as real)
  }

  /** Every pause is negative, so the first `time.sleep` raises: a negative delay or a negative cap. */
  predicate SleepFails(delay: real, maxDelay: int)
  {
    delay < 0.0 || maxDelay < 0
  }

  /** The pauses after the first `n` failed attempts. */
  function Waits(delay: real, maxDelay: int, n: nat): (ws: seq<real>)
    ensures |ws| == n && forall k :: 0 <= k < n ==> ws[k] == Backoff(delay, maxDelay, k)
  {
    if n == 0 then [] else Waits(delay, maxDelay, n - 1) + [Backoff(delay, maxDelay, n - 1)]
  }

  /** Index of the first successful attempt among the first `n`. */
  function FirstSuccess<T>(attempts: nat -> Result<T, Exc>, n: nat): (r: Option<nat>)
    ensures r.Some? ==> r.value < n && attempts(r.value).Ok?
    ensures r.Some? ==> forall k :: 0 <= k < r.value ==> attempts(k).Err?
    ensures r.None? ==> forall k :: 0 <= k < n ==> attempts(k).Err?
  {
    if n == 0 then None
    else match FirstSuccess(attempts, n - 1)
      case Some(k) => Some(k)
      case None => if attempts(n - 1).Ok? then Some(n - 1) else None
  }

  /** The whole decorated call: its outcome and the pauses taken. */
  datatype RetryRun<T> = RetryRun(outcome: Result<T, Exc>, waits: seq<real>)

  /**
   * `retry_on_failure(max_retries, delay)`: the loop ends at the first
   * successful attempt among `max_retries + 1`, else at the last one, whose
   * outcome it returns after a pause following every earlier attempt. When
   * the pauses are negative, the `time.sleep` after the first failed attempt
   * raises ValueError instead, unless that attempt already ended the loop.
   */
  function RetrySpec<T>(attempts: nat -> Result<T, Exc>, maxRetries: nat, delay: real, maxDelay: int): RetryRun<T>
  {
    var first := FirstSuccess(attempts, maxRetries + 1);
    var last := if first.Some? then first.value else maxRetries;
    if last > 0 && SleepFails(delay, maxDelay) then RetryRun(Err(ValueError(NegativeSleep)), [])
    else RetryRun(attempts(last), Waits(delay, maxDelay, last))
  }

  /** The decorated call as the loop runs it; `calls` counts the invocations of the wrapped function. */
  method RetryOnFailure<T>(attempts: nat -> Result<T, Exc>, maxRetries: nat, delay: real, maxDelay: int)
    returns (outcome: Result<T, Exc>, waits: seq<real>, calls: nat)
    ensures RetryRun(outcome, waits) == RetrySpec(attempts, maxRetries, delay, maxDelay)
    ensures 1 <= calls <= maxRetries + 1 && |waits| == calls - 1
    ensures outcome.Ok? ==> outcome == attempts(calls - 1) && forall k :: 0 <= k < calls - 1 ==> attempts(k).Err?
    ensures outcome.Err? ==>
              || (calls == maxRetries + 1 && outcome == attempts(maxRetries))
              || (calls == 1 && maxRetries > 0 && attempts(0).Err? && SleepFails(delay, maxDelay)
                  && outcome == Err(ValueError(NegativeSleep)))
    ensures forall k :: 0 <= k < |waits| ==> waits[k] == Backoff(delay, maxDelay, k) && waits[k] >= 0.0
  {
    waits := [];
    calls := 0;
    var attempt := 0;
    while true
      invariant attempt <= maxRetries && calls == attempt
      invariant waits == Waits(delay, maxDelay, attempt)
      invariant forall k :: 0 <= k < attempt ==> attempts(k).Err?
      invariant attempt > 0 ==> !SleepFails(delay, maxDelay)
      decreases maxRetries - attempt
    {
      outcome := attempts(attempt);
      calls := calls + 1;
      if outcome.Ok? {
        assert FirstSuccess(attempts, maxRetries + 1) == Some(attempt) by {
          FirstSuccessIs(attempts, maxRetries + 1, attempt);
        }
        return;
      }
      if attempt == maxRetries {
        assert FirstSuccess(attempts, maxRetries + 1).None?;
        return;
      }
      var pause := Backoff(delay, maxDelay, attempt);
      if pause < 0.0 {
        outcome := Err(ValueError(NegativeSleep));
        return;
      }
      waits := waits + [pause];
      attempt := attempt + 1;
    }
  }

  lemma {:induction false} FirstSuccessIs<T>(attempts: nat -> Result<T, Exc>, n: nat, k: nat)
    requires k < n && attempts(k).Ok? && forall j :: 0 <= j < k ==> attempts(j).Err?
    ensures FirstSuccess(attempts, n) == Some(k)
  {
    if n - 1 > k {
      FirstSuccessIs(attempts, n - 1, k);
    } else {
      assert FirstSuccess(attempts, n - 1).None?;
    }
  }

  /** Below the cap each pause is twice the previous one. */
  lemma BackoffDoublesUntilCap(delay: real, maxDelay: int, k: nat)
    requires delay >= 0.0 && Uncapped(delay, k + 1) <= maxDelay as real
    ensures Backoff(delay, maxDelay, k + 1) == 2.0 * Backoff(delay, maxDelay, k)
  {
    UncappedStep(delay, k);
    UncappedNonNegative(delay, k);
    BelowCap(delay, maxDelay, k);
    BelowCap(delay, maxDelay, k + 1);
  }

  /** With a non-negative delay a later pause is never shorter: the backoff only grows until it reaches the cap. */
  lemma BackoffMonotone(delay: real, maxDelay: int, k: nat, j: nat)
    requires delay >= 0.0
    ensures Backoff(delay, maxDelay, k) <= Backoff(delay, maxDelay, k + j)
  {
    UncappedGrows(delay, k, j);
  }

  /** One more failed attempt doubles the uncapped pause. */
  lemma UncappedStep(delay: real, k: nat)
    ensures Uncapped(delay, k + 1) == 2.0 * Uncapped(delay, k)
  {
    assert Pow2(k + 1) as real == 2.0 * Pow2(k) as real;
  }

  lemma {:induction false} UncappedNonNegative(delay: real, k: nat)
    requires delay >= 0.0
    ensures Uncapped(delay, k) >= 0.0
  {
    if k > 0 {
      UncappedNonNegative(delay, k - 1);
      UncappedStep(delay, k - 1);
    } else {
      assert Uncapped(delay, 0) == delay;
    }
  }

  /** The uncapped pause never shrinks from one attempt to a later one. */
  lemma {:induction false} UncappedGrows(delay: real, k: nat, j: nat)
    requires delay >= 0.0
    ensures Uncapped(delay, k) <= Uncapped(delay, k + j)
    decreases j
  {
    if j > 0 {
      UncappedGrows(delay, k, j - 1);
      UncappedStep(delay, k + j - 1);
      UncappedNonNegative(delay, k + j - 1);
    }
  }

  /** Below the cap the pause is the uncapped one. */
  lemma BelowCap(delay: real, maxDelay: int, k: nat)
    requires Uncapped(delay, k) <= maxDelay as real
    ensures Backoff(delay, maxDelay, k) == Uncapped(delay, k)
  {
  }
}
