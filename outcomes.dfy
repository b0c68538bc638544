/** The loops of the adapters that call the broker once per item and stop
    at the first call that fails: the RabbitMQ consumer declaring its
    queues and the RocketMQ consumer subscribing to its topics. */
module Outcomes {

  import opened Types
  import opened Errors

  /** The first position from `i` below `n` whose outcome is a failure,
      or `n` when there is none. */
  function FirstFailureFrom(i: nat, n: nat, outcome: nat -> Option<Error>): (k: nat)
    requires i <= n
    ensures i <= k <= n
    ensures forall j :: i <= j < k ==> outcome(j).None?
    ensures k < n ==> outcome(k).Some?
    decreases n - i
  {
    if i == n || outcome(i).Some? then i else FirstFailureFrom(i + 1, n, outcome)
  }

  /** The position of the first item whose call fails, or the number of
      items when none does; item i's outcome is `outcome(i)`. */
  function FirstFailure<T>(items: seq<T>, outcome: nat -> Option<Error>): nat
  {
    FirstFailureFrom(0, |items|, outcome)
  }
}
