/**
 * The `with_retry` decorator (`services/retry_manager.py`): call the wrapped
 * function up to `max_retries` times, retrying only the listed exception
 * classes and sleeping between attempts, then re-raise the last error.
 *
 * The wrapped call is an oracle `call(attempt)` giving the outcome of each
 * attempt; a `time.sleep(delay)` is counted, not timed.
 */
module RetryManager {
  import opened Wrappers
  import opened TranslationErrors

  /** What the wrapper ends with, how many times it called the function, and how many times it slept. */
  datatype Run<T> = Run(result: Outcome<T>, calls: nat, sleeps: nat)

  /** `raise last_error` with `last_error = None`: Python raises a `TypeError` instead. */
  const RaiseNone := Exc(Builtin("TypeError"), "exceptions must derive from BaseException")

  /** The classes retried by default: `(TranslationError,)`. */
  const DefaultClasses: seq<ExcClass> := [TranslationError]

  /** The loop from `attempt` on, after `lastError` was caught. */
  function RetryFrom<T>(maxRetries: int, classes: seq<ExcClass>, call: nat -> Outcome<T>, attempt: nat, lastError: Option<Exc>)
    : (run: Run<T>)
    decreases maxRetries - attempt
  {
    if attempt >= maxRetries then
      Run(if lastError.Some? then Raised(lastError.value) else Raised(RaiseNone), 0, 0)
    else match call(attempt)
      case Returned(v) => Run(Returned(v), 1, 0)
      case Raised(e) =>
        if !CaughtBy(e, classes) then Run(Raised(e), 1, 0)
        else
          var rest := RetryFrom(maxRetries, classes, call, attempt + 1, Some(e));
          Run(rest.result, rest.calls + 1, rest.sleeps + (if attempt < maxRetries - 1 then 1 else 0))
  }

  /** One call of the decorated function. */
  function WithRetry<T>(maxRetries: int, classes: seq<ExcClass>, call: nat -> Outcome<T>): Run<T> {
    RetryFrom(maxRetries, classes, call, 0, None)
  }

  /** An attempt that raised one of the retried classes. */
  predicate Retried<T>(o: Outcome<T>, classes: seq<ExcClass>) {
    o.Raised? && CaughtBy(o.error, classes)
  }

  /** `wrapper(*args, **kwargs)`. */
  method Wrapper<T>(maxRetries: int, classes: seq<ExcClass>, call: nat -> Outcome<T>)
    returns (result: Outcome<T>, calls: nat, sleeps: nat)
    ensures Run(result, calls, sleeps) == WithRetry(maxRetries, classes, call)
  {
    var lastError: Option<Exc> := None;
    calls, sleeps := 0, 0;
    var attempt: nat := 0;
    while attempt < maxRetries
      invariant calls == attempt && (attempt > 0 ==> lastError.Some?)
      invariant var rest := RetryFrom(maxRetries, classes, call, attempt, lastError);
        WithRetry(maxRetries, classes, call) == Run(rest.result, rest.calls + calls, rest.sleeps + sleeps)
      decreases maxRetries - attempt
    {
      var outcome := call(attempt);
      calls := calls + 1;
      if outcome.Returned? {
        return outcome, calls, sleeps;
      }
      if !CaughtBy(outcome.error, classes) {
        return outcome, calls, sleeps;
      }
      lastError := Some(outcome.error);
      if attempt < maxRetries - 1 {
        sleeps := sleeps + 1;
      }
      attempt := attempt + 1;
    }
    result := if lastError.Some? then Raised(lastError.value) else Raised(RaiseNone);
  }

  /**
   * The function is called at most `max_retries` times, and at least once
   * when `max_retries ≥ 1`; every sleep is followed by another call.
   */
  lemma {:induction false} CallsBounded<T>(maxRetries: int, classes: seq<ExcClass>, call: nat -> Outcome<T>, attempt: nat, lastError: Option<Exc>)
    ensures var run := RetryFrom(maxRetries, classes, call, attempt, lastError);
      run.calls <= (if maxRetries > attempt then maxRetries - attempt else 0) &&
      (attempt < maxRetries ==> run.calls >= 1) &&
      (run.calls == 0 ==> run.sleeps == 0) && (run.calls > 0 ==> run.sleeps < run.calls)
    decreases maxRetries - attempt
  {
    if attempt < maxRetries && Retried(call(attempt), classes) {
      CallsBounded(maxRetries, classes, call, attempt + 1, Some(call(attempt).error));
    }
  }

  /**
   * The first attempt `k` whose outcome is not a retried exception decides
   * the run: its value is returned, or its exception escapes at once, after
   * `k + 1` calls and `k` sleeps.
   */
  lemma {:induction false} FirstDecidingAttempt<T>(maxRetries: int, classes: seq<ExcClass>, call: nat -> Outcome<T>, k: nat)
    requires k < maxRetries
    requires forall j :: 0 <= j < k ==> Retried(call(j), classes)
    requires !Retried(call(k), classes)
    ensures WithRetry(maxRetries, classes, call) == Run(call(k), k + 1, k)
  {
    DecidingFrom(maxRetries, classes, call, 0, None, k);
  }

  lemma {:induction false} DecidingFrom<T>(maxRetries: int, classes: seq<ExcClass>, call: nat -> Outcome<T>, attempt: nat, lastError: Option<Exc>, k: nat)
    requires attempt <= k < maxRetries
    requires forall j :: attempt <= j < k ==> Retried(call(j), classes)
    requires !Retried(call(k), classes)
    ensures RetryFrom(maxRetries, classes, call, attempt, lastError) == Run(call(k), k - attempt + 1, k - attempt)
    decreases k - attempt
  {
    if attempt < k {
      DecidingFrom(maxRetries, classes, call, attempt + 1, Some(call(attempt).error), k);
    }
  }

  /**
   * When every attempt raises a retried exception, the function is called
   * `max_retries` times with `max_retries - 1` sleeps, and the last error
   * is re-raised.
   */
  lemma {:induction false} AllAttemptsFail<T>(maxRetries: int, classes: seq<ExcClass>, call: nat -> Outcome<T>)
    requires maxRetries >= 1
    requires forall j :: 0 <= j < maxRetries ==> Retried(call(j), classes)
    ensures WithRetry(maxRetries, classes, call) == Run(call(maxRetries - 1), maxRetries, maxRetries - 1)
  {
    FailingFrom(maxRetries, classes, call, 0, None);
  }

  lemma {:induction false} FailingFrom<T>(maxRetries: int, classes: seq<ExcClass>, call: nat -> Outcome<T>, attempt: nat, lastError: Option<Exc>)
    requires attempt < maxRetries
    requires forall j :: attempt <= j < maxRetries ==> Retried(call(j), classes)
    ensures RetryFrom(maxRetries, classes, call, attempt, lastError)
      == Run(call(maxRetries - 1), maxRetries - attempt, maxRetries - 1 - attempt)
    decreases maxRetries - attempt
  {
    if attempt + 1 < maxRetries {
      FailingFrom(maxRetries, classes, call, attempt + 1, Some(call(attempt).error));
    } else {
      assert call(attempt).Raised?;
    }
  }

  /** With `max_retries ≤ 0` the function is never called and `raise None` fails with a `TypeError`. */
  lemma NoAttempts<T>(maxRetries: int, classes: seq<ExcClass>, call: nat -> Outcome<T>)
    requires maxRetries <= 0
    ensures WithRetry(maxRetries, classes, call) == Run(Raised(RaiseNone), 0, 0)
  {
  }
}
