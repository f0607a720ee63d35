/**
 * The fixed-delay retry policy: a configuration (attempt ceiling, back-off
 * period in whole milliseconds, retryable exception types) and the decisions
 * a retry loop asks of it.
 */
module RetryPolicies {
  import opened Wrappers
  import opened BoundedInts
  import opened Exceptions
  import opened TimeSpans
  import opened RetryContexts

  const DefaultMaxAttempts: Int32 := 3
  const DefaultBackOffPeriod: TimeSpan := FromMilliseconds(1000)
  const ExhaustedMessage: string := "Retry exhausted after last attempt with no recovery path."

  /** The retryable types installed when none are given: `Exception`, which every failure derives from. */
  const AllExceptions: Option<seq<ExceptionType>> := Some([Exception])

  /**
   * Which failure types a configured type array makes retryable: the array is
   * present and some element is the failure's type or one of its ancestors.
   */
  predicate Retryable(types: Option<seq<ExceptionType>>, t: ExceptionType) {
    types.Some? && exists i :: 0 <= i < |types.value| && IsAssignableFrom(types.value[i], t)
  }

  /** `types.Any(target => target.IsAssignableFrom(source))`, scanning from the front. */
  function AnyAssignableFrom(types: seq<ExceptionType>, source: ExceptionType): (r: bool)
    ensures r <==> exists i :: 0 <= i < |types| && IsAssignableFrom(types[i], source)
    decreases |types|
  {
    if types == [] then false
    else IsAssignableFrom(types[0], source) || AnyAssignableFrom(types[1..], source)
  }

  /** The pending task `Task.Delay` hands back: it completes once `period` has elapsed. */
  datatype DelayTask = DelayTask(period: TimeSpan)

  class SimpleRetryPolicy {
    var maxAttempts: Int32
    /** The back-off period, stored as whole milliseconds. */
    var backOffPeriodMs: Int32
    /** `None` stands for a null array. */
    const retryableExceptionTypes: Option<seq<ExceptionType>>

    /** Three attempts, one second of back-off, every exception retryable. */
    constructor ()
      ensures maxAttempts == DefaultMaxAttempts
      ensures backOffPeriodMs == 1000 && BackOffPeriod() == DefaultBackOffPeriod
      ensures retryableExceptionTypes == AllExceptions
    {
      maxAttempts := DefaultMaxAttempts;
      backOffPeriodMs := TruncatedMilliseconds(DefaultBackOffPeriod);
      retryableExceptionTypes := AllExceptions;
    }

    /** A given ceiling and back-off; every exception retryable. */
    constructor WithBackOff(maxAttempts: Int32, backOffPeriod: TimeSpan)
      requires IsInt32(TruncatedMilliseconds(backOffPeriod))
      ensures this.maxAttempts == maxAttempts
      ensures backOffPeriodMs == TruncatedMilliseconds(backOffPeriod)
      ensures retryableExceptionTypes == AllExceptions
    {
      this.maxAttempts := maxAttempts;
      backOffPeriodMs := TruncatedMilliseconds(backOffPeriod);
      retryableExceptionTypes := AllExceptions;
    }

    /** A given ceiling, back-off and retryable type array, which may be null or empty. */
    constructor WithRetryableExceptions(maxAttempts: Int32, backOffPeriod: TimeSpan,
                                        retryableExceptions: Option<seq<ExceptionType>>)
      requires IsInt32(TruncatedMilliseconds(backOffPeriod))
      ensures this.maxAttempts == maxAttempts
      ensures backOffPeriodMs == TruncatedMilliseconds(backOffPeriod)
      ensures retryableExceptionTypes == retryableExceptions
    {
      this.maxAttempts := maxAttempts;
      backOffPeriodMs := TruncatedMilliseconds(backOffPeriod);
      retryableExceptionTypes := retryableExceptions;
    }

    /** Fails closed on a null failure and on a null type array; otherwise asks whether any type matches. */
    function RetryForException(classifiable: Option<Error>): (r: bool)
      ensures classifiable.None? ==> !r
      ensures retryableExceptionTypes.None? ==> !r
      ensures r <==> classifiable.Some? && Retryable(retryableExceptionTypes, classifiable.value.errorType)
    {
      if classifiable.None? then false
      else if retryableExceptionTypes.None? then false
      else AnyAssignableFrom(retryableExceptionTypes.value, classifiable.value.errorType)
    }

    /** The stored ceiling, the one `CanRetry` compares the count against. */
    function MaxAttempts(): (r: Int32)
      reads this
      ensures r == maxAttempts
      ensures forall state: RetryState :: Permits(state) ==> state.retryCount < r
    {
      maxAttempts
    }

    method SetMaxAttempts(value: Int32)
      modifies this
      ensures MaxAttempts() == value
      ensures backOffPeriodMs == old(backOffPeriodMs)
    {
      maxAttempts := value;
    }

    /** The stored period as a span; it is whole milliseconds and converts back to the stored count. */
    function BackOffPeriod(): (t: TimeSpan)
      reads this
      ensures IsWholeMilliseconds(t)
      ensures TruncatedMilliseconds(t) == backOffPeriodMs
    {
      FromMilliseconds(backOffPeriodMs)
    }

    /** Stores `value` truncated toward zero to whole milliseconds; a whole-millisecond span reads back unchanged. */
    method SetBackOffPeriod(value: TimeSpan)
      requires IsInt32(TruncatedMilliseconds(value))
      modifies this
      ensures backOffPeriodMs == TruncatedMilliseconds(value)
      ensures BackOffPeriod() == FromMilliseconds(TruncatedMilliseconds(value))
      ensures IsWholeMilliseconds(value) ==> BackOffPeriod() == value
      ensures maxAttempts == old(maxAttempts)
    {
      backOffPeriodMs := TruncatedMilliseconds(value);
      WholeMillisecondsRoundTrip(value);
    }

    /**
     * What `CanRetry` decides for a context in state `state`: no failure yet,
     * or a retryable one, and fewer attempts than the ceiling (the first
     * attempt counts).
     */
    predicate Permits(state: RetryState)
      reads this
    {
      && (state.lastException.None? || Retryable(retryableExceptionTypes, state.lastException.value.errorType))
      && state.retryCount < maxAttempts
    }

    /** Reads the context and changes nothing. */
    method CanRetry(context: RetryContext) returns (r: bool)
      ensures r == Permits(context.State())
    {
      var ex := context.lastException;
      r := (ex.None? || RetryForException(ex)) && context.retryCount < maxAttempts;
    }

    /** Registers one failed attempt on the context; the policy itself is untouched. */
    method RegisterThrowable(context: RetryContext, exception: Option<Error>)
      modifies context
      ensures context.State() == old(context.State()).Register(exception)
    {
      context.RegisterException(exception);
    }

    /** Blocks for the back-off period; the model returns the span handed to the sleep. */
    method BackOff(context: RetryContext) returns (slept: TimeSpan)
      ensures slept == BackOffPeriod()
    {
      slept := BackOffPeriod();
    }

    /** The non-blocking back-off: a delay task of the same span as `BackOff` sleeps. */
    method BackOffAsync(context: RetryContext) returns (task: DelayTask)
      ensures task.period == BackOffPeriod()
    {
      task := DelayTask(BackOffPeriod());
    }

    /** Never returns a value: always throws the exhaustion error wrapping the last failure. */
    method HandleRetryExhausted<T>(context: RetryContext) returns (r: Outcome<T>)
      ensures !r.Returned?
      ensures r.exception.errorType == ExhaustedRetryException
      ensures r.exception.message == ExhaustedMessage
      ensures r.exception.innerException == context.lastException
    {
      r := Threw(Error(ExhaustedRetryException, ExhaustedMessage, context.lastException));
    }
  }

  /** With a null or empty type array, any registered failure stops retrying, whatever the count. */
  lemma FailsClosed(policy: SimpleRetryPolicy, state: RetryState)
    requires policy.retryableExceptionTypes.None? || policy.retryableExceptionTypes == Some([])
    requires state.lastException.Some?
    ensures !policy.Permits(state)
  {
  }

  /** Under the default type array every non-null failure is retryable. */
  lemma {:induction false} DefaultTypesRetryEverything(policy: SimpleRetryPolicy, exception: Error)
    requires policy.retryableExceptionTypes == AllExceptions
    ensures policy.RetryForException(Some(exception))
  {
    ExceptionIsAssignableFromAll(exception.errorType);
  }

  /** When `Exception` is among the retryable types, only the count limits retrying. */
  lemma {:induction false} OnlyCountLimits(policy: SimpleRetryPolicy, state: RetryState)
    requires policy.retryableExceptionTypes.Some? && Exception in policy.retryableExceptionTypes.value
    ensures policy.Permits(state) <==> state.retryCount < policy.maxAttempts
  {
    if state.lastException.Some? {
      ExceptionIsAssignableFromAll(state.lastException.value.errorType);
    }
  }

  /**
   * From a fresh context with every exception retryable, retrying is allowed
   * after the 1st to the (maxAttempts-1)th registration and refused from the
   * maxAttempts-th on.
   */
  lemma {:induction false} AttemptsFromFresh(policy: SimpleRetryPolicy, exceptions: seq<Option<Error>>)
    requires policy.retryableExceptionTypes.Some? && Exception in policy.retryableExceptionTypes.value
    ensures policy.Permits(RegisterAll(Fresh, exceptions)) <==> |exceptions| < policy.maxAttempts
  {
    OnlyCountLimits(policy, RegisterAll(Fresh, exceptions));
  }

  /** Once the count has reached the ceiling, no further registrations make retrying possible again. */
  lemma ExhaustionIsPermanent(policy: SimpleRetryPolicy, state: RetryState, exceptions: seq<Option<Error>>)
    requires state.retryCount >= policy.maxAttempts
    ensures !policy.Permits(RegisterAll(state, exceptions))
  {
  }

  /** With a single retryable type, a failure is retried only if it derives from that type. */
  lemma SingleRetryableType(policy: SimpleRetryPolicy, t: ExceptionType, state: RetryState)
    requires policy.retryableExceptionTypes == Some([t])
    requires state.lastException.Some?
    ensures policy.Permits(state) <==>
      IsAssignableFrom(t, state.lastException.value.errorType) && state.retryCount < policy.maxAttempts
  {
    assert policy.retryableExceptionTypes.value[0] == t;
  }
}
