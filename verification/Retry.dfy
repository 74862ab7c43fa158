/** The retry loop around a fallible operation. */
module Retry {

  datatype Try<+T, +E> = Returned(value: T) | Raised(error: E)

  // How the loop ended: with the outcome of an attempt, or at the guard behind the loop.
  datatype Ending<+T, +E> = Attempted(outcome: Try<T, E>) | InvalidState

  // `n` is the attempt the loop stops at: the first that returned, or raised for good, or was the last.
  ghost predicate StopsAt<T, E>(operation: nat -> Try<T, E>, retryable: E -> bool, max: int, n: nat) {
    && 1 <= n <= max
    && (forall k: nat | 1 <= k < n :: operation(k).Raised? && retryable(operation(k).error))
    && (operation(n).Returned? || !retryable(operation(n).error) || n == max)
  }

  lemma StopsOnce<T, E>(operation: nat -> Try<T, E>, retryable: E -> bool, max: int, m: nat, n: nat)
    requires StopsAt(operation, retryable, max, m) && StopsAt(operation, retryable, max, n)
    ensures m == n
  {
    var first, second := operation(m), operation(n);
  }

  // `operation(k)` is what the k-th call of the operation does. With at least one attempt allowed the
  // operation is called between one and `maxAttempts` times and the guards behind the loop are dead.
  method RetryAsync<T, E>(operation: nat -> Try<T, E>, retryable: E -> bool, maxAttempts: int)
    returns (ending: Ending<T, E>, calls: nat)
    ensures maxAttempts >= 1 ==>
      StopsAt(operation, retryable, maxAttempts, calls) && ending == Attempted(operation(calls))
    ensures maxAttempts < 1 ==> calls == 0 && ending == InvalidState
  {
    calls := 0;
    var failed := false;
    var attempt := 1;
    while attempt <= maxAttempts
      invariant 1 <= attempt && (attempt <= maxAttempts || maxAttempts < 1)
      invariant calls == attempt - 1
      invariant maxAttempts < 1 ==> attempt == 1
      invariant failed ==> maxAttempts >= 1
      invariant forall k: nat | 1 <= k < attempt :: operation(k).Raised? && retryable(operation(k).error)
      decreases maxAttempts - attempt
    {
      calls := calls + 1;
      var outcome := operation(calls);
      if outcome.Returned? {
        return Attempted(outcome), calls;
      }
      if !retryable(outcome.error) || attempt == maxAttempts {
        return Attempted(outcome), calls;
      }
      failed := true;
      attempt := attempt + 1;
    }
    assert !failed;
    ending := InvalidState;
  }
}
