/**
 * Exceptions as plain values. The run-time type of an exception is one of a
 * closed set of exception types; each type but the root `Exception` names its
 * base type, and `IsAssignableFrom` walks that chain the way .NET's
 * `Type.IsAssignableFrom` answers "is this type the same as, or derived from,
 * that one" for exception classes.
 */
module Exceptions {
  import opened Wrappers

  /** The exception types a failure can have (a fixed excerpt of the .NET hierarchy). */
  datatype ExceptionType =
    | Exception
    | SystemException
    | ArgumentException
    | ArgumentNullException
    | InvalidOperationException
    | IOException
    | TimeoutException
    | OperationCanceledException
    | TaskCanceledException
    | ExhaustedRetryException

  /** Distance from the root `Exception`. */
  function Depth(t: ExceptionType): nat {
    match t
    case Exception => 0
    case SystemException | ExhaustedRetryException => 1
    case ArgumentException | InvalidOperationException | IOException
      | TimeoutException | OperationCanceledException => 2
    case ArgumentNullException | TaskCanceledException => 3
  }

  /** The direct base class; only the root has none, and every step goes one level up. */
  function BaseType(t: ExceptionType): (r: Option<ExceptionType>)
    ensures r.None? <==> t == Exception
    ensures r.Some? ==> Depth(r.value) + 1 == Depth(t)
  {
    match t
    case Exception => None
    case SystemException | ExhaustedRetryException => Some(Exception)
    case ArgumentException | InvalidOperationException | IOException
      | TimeoutException | OperationCanceledException => Some(SystemException)
    case ArgumentNullException => Some(ArgumentException)
    case TaskCanceledException => Some(OperationCanceledException)
  }

  /** `target.IsAssignableFrom(source)`: `source` is `target` or one of its descendants. */
  predicate IsAssignableFrom(target: ExceptionType, source: ExceptionType): (r: bool)
    ensures source == target ==> r
    ensures r ==> Depth(target) <= Depth(source)
    decreases Depth(source)
  {
    source == target || (BaseType(source).Some? && IsAssignableFrom(target, BaseType(source).value))
  }

  /** Every exception type derives from `Exception`. */
  lemma {:induction false} ExceptionIsAssignableFromAll(t: ExceptionType)
    ensures IsAssignableFrom(Exception, t)
    decreases Depth(t)
  {
    if t != Exception {
      ExceptionIsAssignableFromAll(BaseType(t).value);
    }
  }

  /** The ancestor relation is transitive. */
  lemma {:induction false} AssignableTransitive(a: ExceptionType, b: ExceptionType, c: ExceptionType)
    requires IsAssignableFrom(a, b) && IsAssignableFrom(b, c)
    ensures IsAssignableFrom(a, c)
    decreases Depth(c)
  {
    if c != b {
      AssignableTransitive(a, b, BaseType(c).value);
    }
  }

  /** An ancestor sits strictly higher in the hierarchy unless it is the type itself. */
  lemma {:induction false} AssignableDepth(target: ExceptionType, source: ExceptionType)
    requires IsAssignableFrom(target, source)
    ensures Depth(target) <= Depth(source)
    ensures target != source ==> Depth(target) < Depth(source)
    decreases Depth(source)
  {
    if source != target {
      AssignableDepth(target, BaseType(source).value);
    }
  }

  /** The ancestor relation is antisymmetric, so with reflexivity and transitivity a partial order. */
  lemma AssignableAntisymmetric(a: ExceptionType, b: ExceptionType)
    requires IsAssignableFrom(a, b) && IsAssignableFrom(b, a)
    ensures a == b
  {
    AssignableDepth(a, b);
    AssignableDepth(b, a);
  }

  /** An exception object: its run-time type, its message and its inner exception (`None` for null). */
  datatype Error = Error(errorType: ExceptionType, message: string, innerException: Option<Error>)

  /** How a call ends: it returns a value or it throws. */
  datatype Outcome<T> = Returned(value: T) | Threw(exception: Error)
}
