/** Failure-carrying values used in place of Python's `None` and exceptions. */
module Wrappers {

  /** A value that may be absent (Python's `Optional[T]`). */
  datatype Option<+T> = None | Some(value: T)

  /** Either a computed value or the error an operation raised. */
  datatype Result<+T, +E> = Success(value: T) | Failure(error: E)
}
