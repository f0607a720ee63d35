# SimpleRetryPolicy, modelled in Dafny

A model of GroupCache's fixed-delay retry policy. A retry loop wraps a fallible
operation. After each failure it registers the failure on a per-operation retry
context, asks the policy whether it may retry, backs off for a fixed period and
tries again. When the policy refuses, the loop calls the exhaustion handler,
which throws.

The model has these parts:

- `Exceptions` (exceptions.dfy): a closed hierarchy of exception types. Each
  type but `Exception` has a base type, and `IsAssignableFrom` walks that chain.
  This stands in for .NET's run-time `GetType`/`Type.IsAssignableFrom`. The
  ancestor relation is proved to be a partial order whose top is `Exception`.
  `Error` is an exception object and `Outcome` says whether a call returned or
  threw.
- `TimeSpans` (time_span.dfy): `TimeSpan` as ticks. It has
  `FromMilliseconds` and the C# cast `(int)span.TotalMilliseconds`, which
  truncates toward zero.
- `RetryContexts` (retry_context.dfy): the retry context as a class with a
  count and a last exception. `RetryState` is its value, and `RegisterAll`
  gives the state after a sequence of registrations.
- `RetryPolicies` (simple_retry_policy.dfy): the class `SimpleRetryPolicy`. It
  holds the two mutable tunables (the attempt ceiling, and the back-off in whole
  milliseconds) and the retryable type array, which is fixed at construction.
  It has the three constructors, the classification, `CanRetry`, registration,
  back-off and exhaustion. `Permits` is the specification of `CanRetry`, stated
  with an existential over the type array. The code uses an `Any`-style scan.
- `RetryScenarios` (retry_scenarios.dfy): two retry sequences that use only the
  contracts above.

Null references are `None` of `Option`: a null failure, a null type array and a
null last exception.

In three places the code is looser than the policy's intended contract, or
differs from a natural reading of it. The model follows the code in each:

- One might expect `CanRetry` to be true for the first N registered failures.
  The code tests `RetryCount < MaxAttempts`, and the first attempt counts, so
  with N attempts it is true after the 1st to (N-1)th failures and false after
  the Nth: N tries in all.
- The attempt ceiling is meant to be a positive integer. The code accepts any
  `int`, and the model accepts any 32-bit value. With a ceiling of 0 or less,
  `CanRetry` is always false.
- The back-off is meant to be non-negative. The code stores any truncated
  value, negative ones included.

`RetryContext` is not part of this model. `RetryContexts.RetryContext` is a
minimal stand-in with a count, a last exception and `RegisterException`.
`ExhaustedRetryException` is not part of this model either. Its base type is
taken to be `Exception`.

## Model

| member | source | states |
|---|---|---|
| `Exceptions.BaseType` | GroupCache/SimpleRetryPolicy.cs:49 | only `Exception` lacks a base type, and each base type is exactly one level nearer the root, so every chain of base types ends |
| `Exceptions.IsAssignableFrom` | GroupCache/SimpleRetryPolicy.cs:49 | `target.IsAssignableFrom(source)`: true when the types are equal, and only for a target no deeper in the hierarchy than the source |
| `Exceptions.ExceptionIsAssignableFromAll` | GroupCache/SimpleRetryPolicy.cs:22 | `Exception`, the default retryable type, is assignable from every exception type |
| `Exceptions.AssignableTransitive` | GroupCache/SimpleRetryPolicy.cs:49 | the "same as or ancestor of" relation used for matching is transitive |
| `Exceptions.AssignableDepth` | GroupCache/SimpleRetryPolicy.cs:49 | an assignable type is never deeper than the type it matches, and strictly shallower unless the two are equal |
| `Exceptions.AssignableAntisymmetric` | GroupCache/SimpleRetryPolicy.cs:49 | two types assignable from each other are the same type |
| `TimeSpans.TruncatedMilliseconds` | GroupCache/SimpleRetryPolicy.cs:29 | `(int)TotalMilliseconds` rounds toward zero: the result is within one millisecond of the span, on its side of zero |
| `TimeSpans.FromMilliseconds` | GroupCache/SimpleRetryPolicy.cs:70 | a span built from whole milliseconds is whole and truncates back to the same count |
| `TimeSpans.WholeMillisecondsRoundTrip` | GroupCache/SimpleRetryPolicy.cs:68-72 | truncating and converting back gives the span itself exactly when it is a whole number of milliseconds |
| `RetryContexts.RegisterAll` | GroupCache/SimpleRetryPolicy.cs:83 | after k registrations the count is up by k, and the last exception is the last one registered (unchanged when k = 0) |
| `RetryContexts.RetryContext.constructor` | GroupCache/SimpleRetryPolicy.cs:76-78 | a new context has count 0 and no last exception |
| `RetryContexts.RetryContext.RegisterException` | GroupCache/SimpleRetryPolicy.cs:83 | sets the last exception to the argument and adds one to the count, nothing else |
| `RetryPolicies.AnyAssignableFrom` | GroupCache/SimpleRetryPolicy.cs:49 | the `Any` scan is true iff some array element is assignable from the failure's type |
| `RetryPolicies.SimpleRetryPolicy.constructor` | GroupCache/SimpleRetryPolicy.cs:10-19 | defaults: 3 attempts, 1000 ms back-off (reading back as `DEFAULT_BACK_OFF_PERIOD`), types `{Exception}` |
| `RetryPolicies.SimpleRetryPolicy.WithBackOff` | GroupCache/SimpleRetryPolicy.cs:21-24 | stores the ceiling and the truncated milliseconds, and installs `{Exception}` as the type array |
| `RetryPolicies.SimpleRetryPolicy.WithRetryableExceptions` | GroupCache/SimpleRetryPolicy.cs:26-31 | stores the ceiling, the back-off truncated toward zero to whole milliseconds, and the type array as given (null or empty included) |
| `RetryPolicies.SimpleRetryPolicy.RetryForException` | GroupCache/SimpleRetryPolicy.cs:33-51 | false for a null failure and for a null array; otherwise true iff some configured type is the failure's type or an ancestor of it (so false for an empty array) |
| `RetryPolicies.SimpleRetryPolicy.MaxAttempts` | GroupCache/SimpleRetryPolicy.cs:57-59 | the getter returns the stored ceiling, and every state `CanRetry` permits has a count below it |
| `RetryPolicies.SimpleRetryPolicy.SetMaxAttempts` | GroupCache/SimpleRetryPolicy.cs:57-61 | the getter then returns the value set, and the back-off is unchanged |
| `RetryPolicies.SimpleRetryPolicy.BackOffPeriod` | GroupCache/SimpleRetryPolicy.cs:68-70 | the getter's span is whole milliseconds and truncates back to the stored count |
| `RetryPolicies.SimpleRetryPolicy.SetBackOffPeriod` | GroupCache/SimpleRetryPolicy.cs:71 | stores the value truncated to whole milliseconds, so the getter returns it truncated (unchanged if already whole); the ceiling is unchanged |
| `RetryPolicies.SimpleRetryPolicy.CanRetry` | GroupCache/SimpleRetryPolicy.cs:74-79 | result is `Permits`: (no last exception, or a retryable one) and count < ceiling; reads only, changes neither policy nor context |
| `RetryPolicies.SimpleRetryPolicy.RegisterThrowable` | GroupCache/SimpleRetryPolicy.cs:81-84 | the context is advanced by exactly one registration of the failure; the policy is not in the frame |
| `RetryPolicies.SimpleRetryPolicy.BackOff` | GroupCache/SimpleRetryPolicy.cs:86-89 | the span slept is the configured back-off period |
| `RetryPolicies.SimpleRetryPolicy.BackOffAsync` | GroupCache/SimpleRetryPolicy.cs:91-94 | the delay task's span is the configured back-off period, the same as `BackOff` |
| `RetryPolicies.SimpleRetryPolicy.HandleRetryExhausted` | GroupCache/SimpleRetryPolicy.cs:96-99 | for a non-null context, never returns a value; always throws `ExhaustedRetryException` with the fixed message, wrapping the context's last exception (null if none) |
| `RetryPolicies.FailsClosed` | GroupCache/SimpleRetryPolicy.cs:42-49 | with a null or empty type array, any registered non-null failure forbids retrying, whatever the count |
| `RetryPolicies.DefaultTypesRetryEverything` | GroupCache/SimpleRetryPolicy.cs:22 | with the default `{Exception}` array every non-null failure is retryable |
| `RetryPolicies.OnlyCountLimits` | GroupCache/SimpleRetryPolicy.cs:78 | when `Exception` is configured, retrying is allowed iff count < ceiling |
| `RetryPolicies.AttemptsFromFresh` | GroupCache/SimpleRetryPolicy.cs:77-78 | from a fresh context with every failure retryable, retrying is allowed after k registrations iff k < ceiling (true for the 1st to (N-1)th, false from the Nth) |
| `RetryPolicies.ExhaustionIsPermanent` | GroupCache/SimpleRetryPolicy.cs:78 | once count >= ceiling, no further registrations make retrying possible |
| `RetryPolicies.SingleRetryableType` | GroupCache/SimpleRetryPolicy.cs:49 | with one configured type, a failure may be retried iff it derives from that type and attempts remain |
| `RetryScenarios.DefaultPolicyAlwaysFailing` | GroupCache/SimpleRetryPolicy.cs:74-99 | default policy, three failures: decisions true, true, false, then the exhaustion error wrapping the last failure |
| `RetryScenarios.UnrelatedFailureStopsAtOnce` | GroupCache/SimpleRetryPolicy.cs:74-79 | a timeout-only policy refuses to retry after one I/O failure although attempts remain |

## Left out

- Sleeping and timers: `Thread.Sleep` and `Task.Delay` are environment effects. `BackOff` and `BackOffAsync` return the span they would wait for and change no state.
- BackOff: does not model what the runtime does with a negative back-off. A period of exactly -1 ms is the infinite timeout: `BackOff` blocks forever and the task from `BackOffAsync` never completes. Any other negative period makes `Thread.Sleep` and `Task.Delay` throw `ArgumentOutOfRangeException`. A period that is too long cannot occur, because it comes from an `int` millisecond count.
- `volatile` and concurrent access to the two tunables: the model is sequential.
- Floating point: the back-off is stored as an integer number of milliseconds. `TotalMilliseconds` is a `double` and is exact only when the tick count is a multiple of 625. For a span whose millisecond count fits an `int`, its rounding error is below 2^-21, while a quotient that is not whole lies at least 10^-4 from every integer. So `(int)TotalMilliseconds` equals the exact quotient of ticks by 10000 truncated toward zero, which is what `TruncatedMilliseconds` computes. The constructors and the setter require that fit, because the out-of-range `(int)` cast of a `double` is unspecified in C#.
- `TimeSpan`'s 64-bit tick range is not bounded. Ticks are unbounded integers.
- Run-time reflection: exception types come from a closed hierarchy with an explicit base-type relation. Configured types that are not exception classes cannot be expressed. Some of them, such as `object` or an interface that `Exception` implements (`ISerializable`), match every failure. Others, such as `string`, match none.
- A null context: the context parameters of `CanRetry`, `RegisterThrowable` and `HandleRetryExhausted` are never null in the model. In the source, a null context throws `NullReferenceException` at lines 76, 83 and 98. At line 98 it throws that exception in place of `ExhaustedRetryException`, because `context.LastException` is evaluated first. `BackOff` and `BackOffAsync` ignore the context.
- A null element inside the type array: the source's `Any` would throw `NullReferenceException` on reaching it. The model's array elements are never null.
- Aliasing of the caller's type array: the array is stored as a value. Later writes by the caller to the same array are not seen.
- The retry count's 32-bit overflow in the context, which would come only after about 2^31 registrations: the count is unbounded.
- The `virtual` override mechanism and the type parameter of `HandleRetryExhausted` beyond its use in `Outcome<T>`.
