/**
 * The per-operation retry context: how many attempts have failed so far and
 * the most recent failure. `RetryContext` is the mutable object the policy
 * is handed; `RetryState` is its value, used to state what a sequence of
 * registrations leaves behind.
 */
module RetryContexts {
  import opened Wrappers
  import opened Exceptions

  /** The observable state of a retry context; `lastException` is `None` for null. */
  datatype RetryState = RetryState(retryCount: nat, lastException: Option<Error>) {

    /** The state after one failed attempt that raised `exception`. */
    function Register(exception: Option<Error>): RetryState {
      RetryState(retryCount + 1, exception)
    }
  }

  /** A context before the first attempt. */
  const Fresh: RetryState := RetryState(0, None)

  /** The state after registering `exceptions` one after another, starting from `s`. */
  function RegisterAll(s: RetryState, exceptions: seq<Option<Error>>): (r: RetryState)
    ensures r.retryCount == s.retryCount + |exceptions|
    ensures r.lastException == if exceptions == [] then s.lastException else exceptions[|exceptions| - 1]
    decreases |exceptions|
  {
    if exceptions == [] then s else RegisterAll(s.Register(exceptions[0]), exceptions[1..])
  }

  class RetryContext {
    var retryCount: nat
    var lastException: Option<Error>

    function State(): RetryState
      reads this
    {
      RetryState(retryCount, lastException)
    }

    constructor ()
      ensures State() == Fresh
    {
      retryCount := 0;
      lastException := None;
    }

    /** Records one failed attempt: the failure becomes the last exception and the count goes up by one. */
    method RegisterException(exception: Option<Error>)
      modifies this
      ensures State() == old(State()).Register(exception)
    {
      lastException := exception;
      retryCount := retryCount + 1;
    }
  }
}
