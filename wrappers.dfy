/** Option and Result, used for C# nulls and for exceptions. */
module Wrappers {

  /** A value that may be absent (a C# null reference). */
  datatype Option<+T> = None | Some(value: T)

  /** The value of a computation, or the exception it threw. */
  datatype Result<+T, +E> = Success(value: T) | Failure(error: E)

  /** A computation that returns nothing useful, or the exception it threw. */
  datatype Outcome<+E> = Pass | Fail(error: E)
}
