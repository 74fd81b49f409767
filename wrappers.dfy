/** Option and Result: the null / exception vocabulary shared by every module. */
module Wrappers {

  /** A value that may be absent (`null` in C#, `None` in Python). */
  datatype Option<T> = None | Some(value: T)
  {
    /** The value, or `default` when absent (`x ?? default`). */
    function GetOr(default: T): T
    {
      match this
      case None => default
      case Some(v) => v
    }
  }

  /** The outcome of an operation that may raise: a value, or the exception it raises. */
  datatype Result<T, E> = Success(value: T) | Failure(error: E)
  {
    predicate IsFailure()
    {
      Failure?
    }

    function PropagateFailure<U>(): Result<U, E>
      requires Failure?
    {
      Failure(error)
    }

    function Extract(): T
      requires Success?
    {
      value
    }
  }

  /** Python truthiness of an optional string: `None` and the empty string are false. */
  predicate TruthyString(s: Option<string>)
  {
    s.Some? && s.value != ""
  }
}
