/** Bounded retry with exponential backoff (`retry_sync` and `retry_async`
    of backend/app/utils.py). The retried operation is given as the outcome
    of each of its calls in turn; the sleeps are recorded as a trace of
    whole milliseconds instead of being slept. */
module Retry {
  import opened Wrappers

  /** What the i-th call of the operation does. */
  datatype Outcome<T, E> = Returns(value: T) | Raises(exc: E)

  /** How a retry loop ends. `NothingRaised` is the case of an attempt budget
      below one: the loop body never runs and the source executes
      `raise None`, which Python turns into a TypeError. */
  datatype Ending<T, E> = Returned(value: T) | Reraised(exc: E) | NothingRaised

  /** One run of a retry loop: how it ended, how many calls it made and the
      sleeps it took between them, in order. */
  datatype Run<T, E> = Run(ending: Ending<T, E>, calls: nat, sleepsMs: seq<nat>)

  const DefaultAttempts: int := 3
  /** `base_delay = 0.5` seconds. */
  const DefaultBaseDelayMs: nat := 500

  function Pow2(k: nat): (r: nat)
    ensures r >= 1
  {
    if k == 0 then 1 else 2 * Pow2(k - 1)
  }

  /** The sleep after failed attempt `attempt` (1-based): base * 2^(attempt-1). */
  function Delay(baseMs: nat, attempt: nat): nat
    requires attempt >= 1
  {
    baseMs * Pow2(attempt - 1)
  }

  /** The first `n` sleeps of the backoff schedule. */
  function Backoff(baseMs: nat, n: nat): (r: seq<nat>)
    ensures |r| == n
    ensures forall i :: 0 <= i < n ==> r[i] == Delay(baseMs, i + 1)
  {
    if n == 0 then [] else Backoff(baseMs, n - 1) + [Delay(baseMs, n)]
  }

  /** The loop from attempt `attempt` onwards: its reference definition. */
  function RetryFrom<T, E>(fn: nat -> Outcome<T, E>, attempt: nat, attempts: int, baseMs: nat): Run<T, E>
    requires attempt >= 1
    decreases attempts - attempt
  {
    if attempt > attempts then Run(NothingRaised, 0, [])
    else match fn(attempt - 1)
      case Returns(v) => Run(Returned(v), 1, [])
      case Raises(e) =>
        if attempt == attempts then Run(Reraised(e), 1, [])
        else
          var rest := RetryFrom(fn, attempt + 1, attempts, baseMs);
          Run(rest.ending, rest.calls + 1, [Delay(baseMs, attempt)] + rest.sleepsMs)
  }

  function Retry<T, E>(fn: nat -> Outcome<T, E>, attempts: int, baseMs: nat): Run<T, E>
  {
    RetryFrom(fn, 1, attempts, baseMs)
  }

  /** `retry_sync`: the loop, proved to run exactly as `Retry` says. */
  method RetrySync<T, E>(fn: nat -> Outcome<T, E>, attempts: int, baseMs: nat) returns (run: Run<T, E>)
    ensures run == Retry(fn, attempts, baseMs)
  {
    var lastExc: Option<E> := None;
    var calls: nat := 0;
    var sleeps: seq<nat> := [];
    var attempt: nat := 1;
    while attempt <= attempts
      invariant attempt >= 1 && calls == attempt - 1
      invariant lastExc.None? <==> attempt == 1
      invariant attempt == 1 || attempt <= attempts
      invariant attempt > 1 ==> fn(attempt - 2).Raises? && lastExc == Some(fn(attempt - 2).exc)
      invariant Retry(fn, attempts, baseMs) == Shift(calls, sleeps, RetryFrom(fn, attempt, attempts, baseMs))
      decreases attempts - attempt
    {
      calls := calls + 1;
      var outcome := fn(attempt - 1);
      if outcome.Returns? {
        return Run(Returned(outcome.value), calls, sleeps);
      }
      lastExc := Some(outcome.exc);
      if attempt == attempts {
        break;
      }
      sleeps := sleeps + [Delay(baseMs, attempt)];
      attempt := attempt + 1;
    }
    run := Run(if lastExc.None? then NothingRaised else Reraised(lastExc.value), calls, sleeps);
  }

  /** `retry_async`: the same loop with awaited calls and sleeps. */
  method RetryAsync<T, E>(fn: nat -> Outcome<T, E>, attempts: int, baseMs: nat) returns (run: Run<T, E>)
    ensures run == Retry(fn, attempts, baseMs)
  {
    var lastExc: Option<E> := None;
    var calls: nat := 0;
    var sleeps: seq<nat> := [];
    var attempt: nat := 1;
    while attempt <= attempts
      invariant attempt >= 1 && calls == attempt - 1
      invariant lastExc.None? <==> attempt == 1
      invariant attempt == 1 || attempt <= attempts
      invariant attempt > 1 ==> fn(attempt - 2).Raises? && lastExc == Some(fn(attempt - 2).exc)
      invariant Retry(fn, attempts, baseMs) == Shift(calls, sleeps, RetryFrom(fn, attempt, attempts, baseMs))
      decreases attempts - attempt
    {
      var outcome := fn(attempt - 1);
      calls := calls + 1;
      if outcome.Raises? {
        lastExc := Some(outcome.exc);
        if attempt == attempts {
          break;
        }
        sleeps := sleeps + [Delay(baseMs, attempt)];
        attempt := attempt + 1;
      } else {
        run := Run(Returned(outcome.value), calls, sleeps);
        return;
      }
    }
    run := Run(if lastExc.None? then NothingRaised else Reraised(lastExc.value), calls, sleeps);
  }

  /** A run preceded by `calls` failed calls and the sleeps after them. */
  function Shift<T, E>(calls: nat, sleeps: seq<nat>, rest: Run<T, E>): Run<T, E>
  {
    Run(rest.ending, calls + rest.calls, sleeps + rest.sleepsMs)
  }

  /** What a run of the loop from `attempt` onwards consists of. */
  lemma {:induction false} RetryFromShape<T, E>(fn: nat -> Outcome<T, E>, attempt: nat, attempts: int, baseMs: nat)
    requires 1 <= attempt <= attempts
    ensures var r := RetryFrom(fn, attempt, attempts, baseMs);
      && 1 <= r.calls <= attempts - attempt + 1
      && (forall j :: attempt - 1 <= j < attempt + r.calls - 2 ==> fn(j).Raises?)
      && |r.sleepsMs| == r.calls - 1
      && (forall i :: 0 <= i < r.calls - 1 ==> r.sleepsMs[i] == Delay(baseMs, attempt + i))
      && (r.ending.Returned? ==> fn(attempt + r.calls - 2) == Returns(r.ending.value))
      && (r.ending.Reraised? ==> attempt + r.calls - 1 == attempts && fn(attempts - 1) == Raises(r.ending.exc))
      && !r.ending.NothingRaised?
    decreases attempts - attempt
  {
    if fn(attempt - 1).Raises? && attempt < attempts {
      RetryFromShape(fn, attempt + 1, attempts, baseMs);
      var rest := RetryFrom(fn, attempt + 1, attempts, baseMs);
      var r := RetryFrom(fn, attempt, attempts, baseMs);
      assert r.sleepsMs == [Delay(baseMs, attempt)] + rest.sleepsMs;
      forall i | 0 <= i < r.calls - 1 ensures r.sleepsMs[i] == Delay(baseMs, attempt + i) {
        if i > 0 { assert r.sleepsMs[i] == rest.sleepsMs[i - 1]; }
      }
    }
  }

  /** The behaviour of `retry_sync`/`retry_async` in full: with no attempt
      budget nothing is called and `None` is raised; otherwise between one and
      `attempts` calls are made, every call but the last failed, the result is
      the last call's value when it returned, the last exception is re-raised
      only when all `attempts` calls failed, and there is one sleep after each
      failed call except the last call, the k-th being base * 2^(k-1). */
  lemma RetryBehaviour<T, E>(fn: nat -> Outcome<T, E>, attempts: int, baseMs: nat)
    ensures var r := Retry(fn, attempts, baseMs);
      && (r.ending.NothingRaised? <==> attempts < 1)
      && (attempts < 1 ==> r.calls == 0 && r.sleepsMs == [])
      && (attempts >= 1 ==> 1 <= r.calls <= attempts && r.sleepsMs == Backoff(baseMs, r.calls - 1))
      && (forall j :: 0 <= j < r.calls - 1 ==> fn(j).Raises?)
      && (r.ending.Returned? ==> fn(r.calls - 1) == Returns(r.ending.value))
      && (r.ending.Reraised? ==> r.calls == attempts && fn(attempts - 1) == Raises(r.ending.exc))
  {
    if attempts >= 1 {
      RetryFromShape(fn, 1, attempts, baseMs);
    }
  }

  /** The first successful call decides the result, and no further call is
      made. */
  lemma RetryFirstSuccess<T, E>(fn: nat -> Outcome<T, E>, attempts: int, baseMs: nat, k: nat)
    requires k < attempts && fn(k).Returns?
    requires forall j :: 0 <= j < k ==> fn(j).Raises?
    ensures Retry(fn, attempts, baseMs) == Run(Returned(fn(k).value), k + 1, Backoff(baseMs, k))
  {
    RetryBehaviour(fn, attempts, baseMs);
  }

  /** An operation that always fails is called exactly `attempts` times and
      its last exception is re-raised, after `attempts - 1` sleeps. */
  lemma RetryAlwaysFails<T, E>(fn: nat -> Outcome<T, E>, attempts: int, baseMs: nat)
    requires attempts >= 1
    requires forall j :: 0 <= j < attempts ==> fn(j).Raises?
    ensures Retry(fn, attempts, baseMs) == Run(Reraised(fn(attempts - 1).exc), attempts, Backoff(baseMs, attempts - 1))
  {
    RetryBehaviour(fn, attempts, baseMs);
  }

  lemma {:induction false} Pow2Doubles(k: nat)
    ensures Pow2(k + 1) == 2 * Pow2(k)
  {
  }

  lemma {:induction false} Pow2Monotone(i: nat, j: nat)
    requires i < j
    ensures Pow2(i) < Pow2(j)
    decreases j
  {
    if i < j - 1 { Pow2Monotone(i, j - 1); }
  }

  /** Each sleep doubles the previous one, so with a positive base the
      delays strictly increase. */
  lemma BackoffIncreases(baseMs: nat, n: nat)
    ensures forall i :: 0 <= i < n - 1 ==> Backoff(baseMs, n)[i + 1] == 2 * Backoff(baseMs, n)[i]
    ensures baseMs > 0 ==> forall i, j :: 0 <= i < j < n ==> Backoff(baseMs, n)[i] < Backoff(baseMs, n)[j]
  {
    var b := Backoff(baseMs, n);
    forall i | 0 <= i < n - 1 ensures b[i + 1] == 2 * b[i] {
      Pow2Doubles(i);
    }
    if baseMs > 0 {
      forall i, j | 0 <= i < j < n ensures b[i] < b[j] {
        Pow2Monotone(i, j);
        MulStrict(baseMs, Pow2(i), Pow2(j));
      }
    }
  }

  lemma MulStrict(a: nat, x: nat, y: nat)
    requires a > 0 && x < y
    ensures a * x < a * y
  {
  }
}
