/** The retry combinator. The task is run again and again; `task(i)` is the
    outcome of the run with index `i` (counting from 0). */
module Retry {
  import opened Wrappers

  function AttemptLimit(maxRetries: nat): (n: nat)
    ensures n >= 1
  {
    if maxRetries == 0 then 1 else maxRetries
  }

  /** `until`: runs the task until its outcome satisfies `accept`, or
      until `maxRetries` runs (but at least one) have been made. Returns the
      last outcome and the number of runs. */
  method Until<R>(task: nat -> R, maxRetries: nat, accept: R -> bool) returns (result: R, attempts: nat)
    ensures 1 <= attempts <= AttemptLimit(maxRetries)
    ensures result == task(attempts - 1)
    ensures forall i :: 0 <= i < attempts - 1 ==> !accept(task(i))
    ensures accept(result) || attempts == AttemptLimit(maxRetries)
  {
    attempts := 0;
    while true
      invariant attempts < AttemptLimit(maxRetries)
      invariant forall i :: 0 <= i < attempts ==> !accept(task(i))
      decreases AttemptLimit(maxRetries) - attempts
    {
      result := task(attempts);
      if accept(result) {
        attempts := attempts + 1;
        return;
      }
      attempts := attempts + 1;
      if attempts >= maxRetries {
        return;
      }
    }
  }

  /** `until_ok`: `until` with the predicate "the outcome is `Ok`". */
  method UntilOk<T, E>(task: nat -> Result<T, E>, maxRetries: nat) returns (result: Result<T, E>, attempts: nat)
    ensures 1 <= attempts <= AttemptLimit(maxRetries)
    ensures result == task(attempts - 1)
    ensures forall i :: 0 <= i < attempts - 1 ==> task(i).Err?
    ensures result.Ok? || attempts == AttemptLimit(maxRetries)
  {
    result, attempts := Until(task, maxRetries, (r: Result<T, E>) => r.Ok?);
  }
}
