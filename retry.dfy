/** The retry policy of the delivery task: the countdown before the next
    execution and the decision between retrying and giving up. */
module RetryPolicy {

  /** `max_retries=3` on the task decorator. */
  const MaxRetries: nat := 3

  /** Seconds per retry step in the countdown `30 * (retries + 1)`. */
  const BaseDelay: nat := 30

  /** How one execution of the delivery task ends. `Retry` means the task asked
      the queue to run it again after `countdown` seconds; `GiveUp` means the
      retry budget was exhausted and the failure is permanent. */
  datatype TaskOutcome = Done | Retry(countdown: nat) | GiveUp

  /** Countdown requested by the execution whose retry count is `retries`
      (0 for the first execution). */
  function Countdown(retries: nat): (seconds: nat)
    ensures seconds > 0 && seconds % BaseDelay == 0
    ensures seconds / BaseDelay == retries + 1
  {
    BaseDelay * (retries + 1)
  }

  /** Later retries wait strictly longer. */
  lemma CountdownIncreasing(r1: nat, r2: nat)
    requires r1 < r2
    ensures Countdown(r1) < Countdown(r2)
  {
  }

  /** The branch taken after a failed execution. The internals of the task
      library's `retry` are not part of this model; it is assumed to grant a
      retry exactly when the current retry count is below the cap. `GiveUp`
      means no further execution is scheduled and the status stays "failed";
      which exception ends that last execution is left open. */
  function RetryDecision(retries: nat, maxRetries: nat): (outcome: TaskOutcome)
    ensures outcome.Retry? <==> retries < maxRetries
    ensures outcome.GiveUp? <==> retries >= maxRetries
    ensures outcome.Retry? ==> outcome.countdown == BaseDelay * (retries + 1)
  {
    if retries < maxRetries then Retry(Countdown(retries)) else GiveUp
  }
}
