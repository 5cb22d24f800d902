/**
 * Bounded retry with linear backoff. The callable is given as the outcome of each of its
 * invocations (`call(k)` is what the k-th invocation returns or throws), and each sleep is
 * recorded as a wait in milliseconds instead of being slept.
 */
module Retry {
  import opened Wrappers
  import opened Types
  import JavaStrings

  /** What one run of the retry loop did: its result, how often it invoked the callable, and its waits. */
  datatype RetryRun<T> = RetryRun(outcome: Result<T, JavaException>, invocations: nat, waits: seq<int>)

  /** The exception thrown when every attempt failed; its cause is the last failure (null when none ran). */
  function Exhausted(operationName: string, maxAttempts: int, last: Option<JavaException>): JavaException
  {
    JavaException(RuntimeException,
                  Some("Operation '" + operationName + "' failed after " + JavaStrings.IntToString(maxAttempts) + " attempts"),
                  last)
  }

  /** Thread.sleep with a negative argument. */
  const NegativeTimeout: JavaException :=
    JavaException(IllegalArgumentException, Some("timeout value is negative"), None)

  /** The retry loop from attempt number `attempt` on, with the last failure and the waits so far. */
  function RetryFrom<T>(call: nat -> Result<T, JavaException>, attempt: nat, maxAttempts: int, delayMs: int,
                        operationName: string, last: Option<JavaException>, waits: seq<int>): RetryRun<T>
    requires attempt >= 1
    decreases maxAttempts - attempt
  {
    if attempt > maxAttempts then
      RetryRun(Failure(Exhausted(operationName, maxAttempts, last)), attempt - 1, waits)
    else
      match call(attempt)
      case Success(v) => RetryRun(Success(v), attempt, waits)
      case Failure(e) =>
        if attempt < maxAttempts then
          if delayMs * attempt < 0 then RetryRun(Failure(NegativeTimeout), attempt, waits)
          else RetryFrom(call, attempt + 1, maxAttempts, delayMs, operationName, Some(e), waits + [delayMs * attempt])
        else
          RetryFrom(call, attempt + 1, maxAttempts, delayMs, operationName, Some(e), waits)
  }

  /** executeWithRetry(callable, maxAttempts, delayMs, operationName) */
  function RetrySpec<T>(call: nat -> Result<T, JavaException>, maxAttempts: int, delayMs: int,
                        operationName: string): RetryRun<T>
  {
    RetryFrom(call, 1, maxAttempts, delayMs, operationName, None, [])
  }

  /** The waits before attempts 2, 3, ..., n + 1: delayMs * 1, delayMs * 2, ..., delayMs * n. */
  function LinearWaits(delayMs: int, n: nat): (w: seq<int>)
    ensures |w| == n
  {
    seq(n, i requires 0 <= i < n => delayMs * (i + 1))
  }

  method ExecuteWithRetry<T>(call: nat -> Result<T, JavaException>, maxAttempts: int, delayMs: int,
                             operationName: string)
    returns (run: RetryRun<T>)
    ensures run == RetrySpec(call, maxAttempts, delayMs, operationName)
  {
    var lastException: Option<JavaException> := None;
    var waits: seq<int> := [];
    var attempt: nat := 1;
    while attempt <= maxAttempts
      invariant attempt >= 1
      invariant RetrySpec(call, maxAttempts, delayMs, operationName)
             == RetryFrom(call, attempt, maxAttempts, delayMs, operationName, lastException, waits)
      decreases maxAttempts - attempt
    {
      var outcome := call(attempt);
      if outcome.Success? {
        return RetryRun(Success(outcome.value), attempt, waits);
      }
      lastException := Some(outcome.error);
      if attempt < maxAttempts {
        var waitTime := delayMs * attempt;  // linear backoff
        if waitTime < 0 {
          return RetryRun(Failure(NegativeTimeout), attempt, waits);
        }
        waits := waits + [waitTime];
      }
      attempt := attempt + 1;
    }
    run := RetryRun(Failure(Exhausted(operationName, maxAttempts, lastException)), attempt - 1, waits);
  }

  /** The two-argument overload: 3 attempts, 1000 ms base delay. */
  method ExecuteWithRetryDefaults<T>(call: nat -> Result<T, JavaException>, operationName: string)
    returns (run: RetryRun<T>)
    ensures run == RetrySpec(call, 3, 1000, operationName)
  {
    run := ExecuteWithRetry(call, 3, 1000, operationName);
  }

  lemma {:induction false} FirstSuccessFrom<T>(call: nat -> Result<T, JavaException>, attempt: nat, k: nat,
                                               maxAttempts: int, delayMs: int, operationName: string,
                                               last: Option<JavaException>, waits: seq<int>)
    requires 1 <= attempt <= k <= maxAttempts && delayMs >= 0
    requires call(k).Success?
    requires forall j :: attempt <= j < k ==> call(j).Failure?
    ensures RetryFrom(call, attempt, maxAttempts, delayMs, operationName, last, waits)
         == RetryRun(Success(call(k).value), k, waits + LinearWaits(delayMs, k - 1)[attempt - 1..])
    decreases k - attempt
  {
    if attempt == k {
      assert LinearWaits(delayMs, k - 1)[attempt - 1..] == [];
    } else {
      assert call(attempt).Failure?;
      assert delayMs * attempt >= 0;
      var w := waits + [delayMs * attempt];
      FirstSuccessFrom(call, attempt + 1, k, maxAttempts, delayMs, operationName, Some(call(attempt).error), w);
      var all := LinearWaits(delayMs, k - 1);
      assert all[attempt - 1..] == [delayMs * attempt] + all[attempt..];
    }
  }

  /**
   * If the first k - 1 invocations fail and the k-th succeeds (k within the bound), the result
   * is the k-th value, the callable ran exactly k times, and the waits were delayMs * 1 .. delayMs * (k - 1).
   */
  lemma FirstSuccessWins<T>(call: nat -> Result<T, JavaException>, k: nat, maxAttempts: int, delayMs: int,
                            operationName: string)
    requires 1 <= k <= maxAttempts && delayMs >= 0
    requires call(k).Success?
    requires forall j :: 1 <= j < k ==> call(j).Failure?
    ensures RetrySpec(call, maxAttempts, delayMs, operationName)
         == RetryRun(Success(call(k).value), k, LinearWaits(delayMs, k - 1))
  {
    FirstSuccessFrom(call, 1, k, maxAttempts, delayMs, operationName, None, []);
  }

  lemma {:induction false} AllFailFrom<T>(call: nat -> Result<T, JavaException>, attempt: nat, maxAttempts: int,
                                          delayMs: int, operationName: string, last: Option<JavaException>,
                                          waits: seq<int>)
    requires 1 <= attempt <= maxAttempts && delayMs >= 0
    requires forall j :: attempt <= j <= maxAttempts ==> call(j).Failure?
    ensures RetryFrom(call, attempt, maxAttempts, delayMs, operationName, last, waits)
         == RetryRun(Failure(Exhausted(operationName, maxAttempts, Some(call(maxAttempts).error))),
                     maxAttempts, waits + LinearWaits(delayMs, maxAttempts - 1)[attempt - 1..])
    decreases maxAttempts - attempt
  {
    var e := call(attempt).error;
    var all := LinearWaits(delayMs, maxAttempts - 1);
    if attempt == maxAttempts {
      assert all[attempt - 1..] == [];
    } else {
      assert delayMs * attempt >= 0;
      AllFailFrom(call, attempt + 1, maxAttempts, delayMs, operationName, Some(e), waits + [delayMs * attempt]);
      assert all[attempt - 1..] == [delayMs * attempt] + all[attempt..];
    }
  }

  /**
   * When every one of the maxAttempts invocations fails: a RuntimeException naming the operation
   * and the bound, caused by the last failure; exactly maxAttempts invocations; a wait after every
   * failed attempt but the last.
   */
  lemma AllAttemptsFail<T>(call: nat -> Result<T, JavaException>, maxAttempts: int, delayMs: int,
                           operationName: string)
    requires maxAttempts >= 1 && delayMs >= 0
    requires forall j :: 1 <= j <= maxAttempts ==> call(j).Failure?
    ensures var run := RetrySpec(call, maxAttempts, delayMs, operationName);
            && run.outcome == Failure(Exhausted(operationName, maxAttempts, Some(call(maxAttempts).error)))
            && run.invocations == maxAttempts
            && run.waits == LinearWaits(delayMs, maxAttempts - 1)
  {
    AllFailFrom(call, 1, maxAttempts, delayMs, operationName, None, []);
  }

  lemma {:induction false} SuccessIsLastCallFrom<T>(call: nat -> Result<T, JavaException>, attempt: nat,
                                                    maxAttempts: int, delayMs: int, operationName: string,
                                                    last: Option<JavaException>, waits: seq<int>)
    requires attempt >= 1
    requires RetryFrom(call, attempt, maxAttempts, delayMs, operationName, last, waits).outcome.Success?
    ensures var run := RetryFrom(call, attempt, maxAttempts, delayMs, operationName, last, waits);
            && attempt <= run.invocations <= maxAttempts
            && call(run.invocations) == run.outcome
            && forall j :: attempt <= j < run.invocations ==> call(j).Failure?
    decreases maxAttempts - attempt
  {
    if call(attempt).Failure? {
      var w := if attempt < maxAttempts then waits + [delayMs * attempt] else waits;
      SuccessIsLastCallFrom(call, attempt + 1, maxAttempts, delayMs, operationName, Some(call(attempt).error), w);
    }
  }

  /**
   * A successful run returns what its last invocation returned, within the bound, and every
   * earlier invocation failed: that is, the first success wins.
   */
  lemma SuccessIsLastCall<T>(call: nat -> Result<T, JavaException>, maxAttempts: int, delayMs: int,
                             operationName: string)
    requires RetrySpec(call, maxAttempts, delayMs, operationName).outcome.Success?
    ensures var run := RetrySpec(call, maxAttempts, delayMs, operationName);
            && 1 <= run.invocations <= maxAttempts
            && call(run.invocations) == run.outcome
            && forall j :: 1 <= j < run.invocations ==> call(j).Failure?
  {
    SuccessIsLastCallFrom(call, 1, maxAttempts, delayMs, operationName, None, []);
  }

  /** With no attempts allowed the callable never runs and the failure has no cause. */
  lemma NoAttempts<T>(call: nat -> Result<T, JavaException>, maxAttempts: int, delayMs: int, operationName: string)
    requires maxAttempts <= 0
    ensures RetrySpec(call, maxAttempts, delayMs, operationName)
         == RetryRun(Failure(Exhausted(operationName, maxAttempts, None)), 0, [])
  {
  }

  lemma {:induction false} InvocationsBoundedFrom<T>(call: nat -> Result<T, JavaException>, attempt: nat,
                                                     maxAttempts: int, delayMs: int, operationName: string,
                                                     last: Option<JavaException>, waits: seq<int>)
    requires attempt >= 1 && attempt <= maxAttempts + 1
    ensures var run := RetryFrom(call, attempt, maxAttempts, delayMs, operationName, last, waits);
            attempt - 1 <= run.invocations <= maxAttempts
    decreases maxAttempts - attempt
  {
    if attempt <= maxAttempts && call(attempt).Failure? && !(attempt < maxAttempts && delayMs * attempt < 0) {
      var w := if attempt < maxAttempts then waits + [delayMs * attempt] else waits;
      InvocationsBoundedFrom(call, attempt + 1, maxAttempts, delayMs, operationName, Some(call(attempt).error), w);
    }
  }

  /** The callable is invoked at most maxAttempts times (never, when maxAttempts is not positive). */
  lemma InvocationsBounded<T>(call: nat -> Result<T, JavaException>, maxAttempts: int, delayMs: int,
                              operationName: string)
    ensures RetrySpec(call, maxAttempts, delayMs, operationName).invocations <= if maxAttempts > 0 then maxAttempts else 0
  {
    if maxAttempts >= 1 {
      InvocationsBoundedFrom(call, 1, maxAttempts, delayMs, operationName, None, []);
    }
  }

  /** With a positive base delay the waits strictly increase. */
  lemma WaitsIncrease(delayMs: int, n: nat)
    requires delayMs > 0
    ensures forall i, j :: 0 <= i < j < n ==> LinearWaits(delayMs, n)[i] < LinearWaits(delayMs, n)[j]
  {
    var w := LinearWaits(delayMs, n);
    forall i, j | 0 <= i < j < n
      ensures w[i] < w[j]
    {
      MulStrictlyMonotone(delayMs, i + 1, j + 1);
    }
  }

  lemma MulStrictlyMonotone(d: int, a: int, b: int)
    requires d > 0 && a < b
    ensures d * a < d * b
  {
    assert d * b - d * a == d * (b - a);
  }

  /** A negative base delay makes the first sleep throw, so a second attempt never happens. */
  lemma NegativeDelayStopsAfterFirstFailure<T>(call: nat -> Result<T, JavaException>, maxAttempts: int,
                                                delayMs: int, operationName: string)
    requires maxAttempts >= 2 && delayMs < 0
    requires call(1).Failure?
    ensures RetrySpec(call, maxAttempts, delayMs, operationName) == RetryRun(Failure(NegativeTimeout), 1, [])
  {
  }
}
