/** The bounded-retry executor: up to `maxRetries + 1` immediate attempts of
    one fallible operation, first success wins, otherwise the last attempt's
    exception is re-raised as it is. */
module Retry {
  import opened Shapes

  /** A Python exception: its class name and its message. */
  datatype Exception = Exception(kind: string, message: string)

  /** What one attempt of a work method does. */
  datatype Attempt<+T> = Ok(value: T) | Fail(error: Exception)

  /** One attempt's outcome together with the shared context it leaves behind
      (a failed attempt's writes to the shared context are kept). */
  datatype Step<+T> = Step(outcome: Attempt<T>, shared: Dict)

  /** The outcome of the whole retry loop, the number of times the operation
      was called, and the shared context afterwards. */
  datatype Retry<+T> = Retry(outcome: Attempt<T>, calls: nat, shared: Dict)

  /** The raised error for a negative budget. */
  const NegativeBudget: Exception :=
    Exception("ValueError", "max_retries must be non-negative")

  /** Decimal digits of a natural number, as an f-string prints it. */
  function Decimal(n: nat): (s: string)
    ensures |s| > 0
    ensures forall i :: 0 <= i < |s| ==> '0' <= s[i] <= '9'
    decreases n
  {
    var d := [(('0' as int) + n % 10) as char];
    if n < 10 then d else Decimal(n / 10) + d
  }

  /** The error the loop starts from; since the loop makes at least one
      attempt, it is always replaced before it could be raised. */
  function Placeholder(maxRetries: nat): Exception
  {
    Exception("RuntimeError", "Execution failed after " + Decimal(maxRetries) + " retries.")
  }

  /** The shared context that attempt `i` sees, when every earlier attempt was
      made (attempt `i` receives what attempt `i - 1` left behind). */
  function StateBefore<T>(op: (Dict, nat) -> Step<T>, shared: Dict, i: nat): Dict
    decreases i
  {
    if i == 0 then shared else op(StateBefore(op, shared, i - 1), i - 1).shared
  }

  /** What attempt `i` does when it is made. */
  function AttemptAt<T>(op: (Dict, nat) -> Step<T>, shared: Dict, i: nat): Attempt<T>
  {
    op(StateBefore(op, shared, i), i).outcome
  }

  /** Attempts `k .. n - 1`, starting from the shared context `s`. */
  function AttemptsFrom<T>(op: (Dict, nat) -> Step<T>, s: Dict, k: nat, n: nat): (r: Retry<T>)
    requires k < n
    ensures k < r.calls <= n
    ensures r.outcome.Fail? ==> r.calls == n
    decreases n - k
  {
    var step := op(s, k);
    if step.outcome.Ok? || k + 1 == n then Retry(step.outcome, k + 1, step.shared)
    else AttemptsFrom(op, step.shared, k + 1, n)
  }

  /** `_run_with_retries(function, max_retries)`, as a function of the
      operation and the shared context it starts from. */
  function Retried<T>(maxRetries: int, op: (Dict, nat) -> Step<T>, shared: Dict): (r: Retry<T>)
    ensures maxRetries < 0 ==> r.outcome == Fail(NegativeBudget) && r.calls == 0 && r.shared == shared
    ensures maxRetries >= 0 ==> 1 <= r.calls <= maxRetries + 1
    ensures maxRetries >= 0 && r.outcome.Fail? ==> r.calls == maxRetries + 1
  {
    if maxRetries < 0 then Retry(Fail(NegativeBudget), 0, shared)
    else AttemptsFrom(op, shared, 0, maxRetries + 1)
  }

  /** The loop from attempt `k` on stops at the first success or at the last
      attempt, and what it reports is exactly what that attempt did. */
  lemma {:induction false} AttemptsFromSpec<T>(op: (Dict, nat) -> Step<T>, shared: Dict, k: nat, n: nat)
    requires k < n
    ensures var r := AttemptsFrom(op, StateBefore(op, shared, k), k, n);
      && k < r.calls <= n
      && r.outcome == AttemptAt(op, shared, r.calls - 1)
      && r.shared == StateBefore(op, shared, r.calls)
      && (forall j :: k <= j < r.calls - 1 ==> AttemptAt(op, shared, j).Fail?)
      && (r.outcome.Fail? ==> r.calls == n)
    decreases n - k
  {
    var step := op(StateBefore(op, shared, k), k);
    assert StateBefore(op, shared, k + 1) == step.shared;
    if !(step.outcome.Ok? || k + 1 == n) {
      AttemptsFromSpec(op, shared, k + 1, n);
    }
  }

  /** A success is the first one: its value is returned, every earlier attempt
      failed, and no attempt follows it. */
  lemma {:induction false} FirstSuccessReturned<T>(maxRetries: int, op: (Dict, nat) -> Step<T>, shared: Dict)
    requires Retried(maxRetries, op, shared).outcome.Ok?
    ensures var r := Retried(maxRetries, op, shared);
      && r.calls >= 1
      && r.outcome == AttemptAt(op, shared, r.calls - 1)
      && (forall j :: 0 <= j < r.calls - 1 ==> AttemptAt(op, shared, j).Fail?)
  {
    AttemptsFromSpec(op, shared, 0, maxRetries + 1);
  }

  /** When every attempt fails the operation was called exactly
      `maxRetries + 1` times and the exception raised is the last attempt's
      own, not the placeholder and not a wrapper. */
  lemma {:induction false} ExhaustedRaisesLast<T>(maxRetries: int, op: (Dict, nat) -> Step<T>, shared: Dict)
    requires maxRetries >= 0
    requires Retried(maxRetries, op, shared).outcome.Fail?
    ensures var r := Retried(maxRetries, op, shared);
      && r.calls == maxRetries + 1
      && (forall j :: 0 <= j < r.calls ==> AttemptAt(op, shared, j).Fail?)
      && r.outcome == AttemptAt(op, shared, maxRetries)
  {
    AttemptsFromSpec(op, shared, 0, maxRetries + 1);
  }

  /** Conversely, `k` failures followed by a success within the budget give
      that success after exactly `k + 1` calls, with no error surfaced. */
  lemma {:induction false} SucceedsAfterFailures<T>(maxRetries: int, op: (Dict, nat) -> Step<T>, shared: Dict, k: nat)
    requires k <= maxRetries
    requires forall j :: 0 <= j < k ==> AttemptAt(op, shared, j).Fail?
    requires AttemptAt(op, shared, k).Ok?
    ensures Retried(maxRetries, op, shared) == Retry(AttemptAt(op, shared, k), k + 1, StateBefore(op, shared, k + 1))
  {
    AttemptsFromSpec(op, shared, 0, maxRetries + 1);
  }

  /** Nothing is rolled back: the shared context after the loop is the one the
      last attempt made left behind, failed attempts included. */
  lemma {:induction false} SideEffectsKept<T>(maxRetries: int, op: (Dict, nat) -> Step<T>, shared: Dict)
    ensures Retried(maxRetries, op, shared).shared == StateBefore(op, shared, Retried(maxRetries, op, shared).calls)
  {
    if maxRetries >= 0 {
      AttemptsFromSpec(op, shared, 0, maxRetries + 1);
    }
  }

  /** `_run_with_retries` as the loop it is: the placeholder error, one
      attempt per iteration, an early return on success, `e` replaced by each
      failure, and the last `e` raised. */
  method RunWithRetries<T>(maxRetries: int, op: (Dict, nat) -> Step<T>, shared: Dict) returns (r: Retry<T>)
    ensures r == Retried(maxRetries, op, shared)
  {
    if maxRetries < 0 {
      return Retry(Fail(NegativeBudget), 0, shared);
    }
    var e := Placeholder(maxRetries);
    var s := shared;
    for i := 0 to maxRetries + 1
      invariant s == StateBefore(op, shared, i)
      invariant forall j :: 0 <= j < i ==> AttemptAt(op, shared, j).Fail?
      invariant i > 0 ==> e == AttemptAt(op, shared, i - 1).error
    {
      var step := op(s, i);
      s := step.shared;
      if step.outcome.Ok? {
        SucceedsAfterFailures(maxRetries, op, shared, i);
        return Retry(step.outcome, i + 1, s);
      }
      e := step.outcome.error;
    }
    AttemptsFromSpec(op, shared, 0, maxRetries + 1);
    var spec := Retried(maxRetries, op, shared);
    assert AttemptAt(op, shared, spec.calls - 1).Fail?;
    return Retry(Fail(e), maxRetries + 1, s);
  }

  /** The two scenarios of a budget of one and of two retries, with an
      operation that fails on its first two attempts and then succeeds. */
  function FlakyOp(shared: Dict, attempt: nat): Step<int>
  {
    if attempt < 2 then Step(Fail(Exception("RuntimeError", if attempt == 0 then "first" else "second")), shared)
    else Step(Ok(attempt), shared)
  }

  lemma FlakyScenarios(shared: Dict)
    ensures Retried(1, FlakyOp, shared) == Retry(Fail(Exception("RuntimeError", "second")), 2, shared)
    ensures Retried(2, FlakyOp, shared) == Retry(Ok(2), 3, shared)
  {
    assert AttemptsFrom(FlakyOp, shared, 1, 2) == Retry(Fail(Exception("RuntimeError", "second")), 2, shared);
    assert AttemptsFrom(FlakyOp, shared, 2, 3) == Retry(Ok(2), 3, shared);
    assert AttemptsFrom(FlakyOp, shared, 1, 3) == Retry(Ok(2), 3, shared);
  }
}
