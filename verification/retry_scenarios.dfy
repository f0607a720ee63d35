/**
 * Two retry sequences written against the policy's and the context's contracts
 * alone, showing the decisions a caller can rely on.
 */
module RetryScenarios {
  import opened Wrappers
  import opened BoundedInts
  import opened Exceptions
  import opened TimeSpans
  import opened RetryContexts
  import opened RetryPolicies

  /**
   * The default policy and an operation that always fails: retrying is allowed
   * after the first and second failures and refused after the third, and the
   * exhaustion handler then throws, wrapping the last failure.
   */
  method DefaultPolicyAlwaysFailing(failure: Error) returns (decisions: seq<bool>, outcome: Outcome<int>)
    ensures decisions == [true, true, false]
    ensures outcome == Threw(Error(ExhaustedRetryException, ExhaustedMessage, Some(failure)))
  {
    var policy := new SimpleRetryPolicy();
    var context := new RetryContext();
    policy.RegisterThrowable(context, Some(failure));
    OnlyCountLimits(policy, context.State());
    var first := policy.CanRetry(context);
    policy.RegisterThrowable(context, Some(failure));
    OnlyCountLimits(policy, context.State());
    var second := policy.CanRetry(context);
    policy.RegisterThrowable(context, Some(failure));
    OnlyCountLimits(policy, context.State());
    var third := policy.CanRetry(context);
    decisions := [first, second, third];
    outcome := policy.HandleRetryExhausted<int>(context);
  }

  /**
   * A policy that retries only on timeouts meets an I/O failure: retrying is
   * refused after the first failure although attempts remain.
   */
  method UnrelatedFailureStopsAtOnce(maxAttempts: Int32) returns (decision: bool)
    requires 1 < maxAttempts
    ensures !decision
  {
    var policy := new SimpleRetryPolicy.WithRetryableExceptions(maxAttempts, DefaultBackOffPeriod, Some([TimeoutException]));
    var context := new RetryContext();
    policy.RegisterThrowable(context, Some(Error(IOException, "connection reset", None)));
    decision := policy.CanRetry(context);
    SingleRetryableType(policy, TimeoutException, context.State());
  }
}
