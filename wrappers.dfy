/** Failure-compatible wrappers for the framework's optional values and raised exceptions. */
module Wrappers {

  /** A value that may be absent (Python's `None`). */
  datatype Option<+T> = None | Some(value: T)

  /** The value of an operation that either returns or raises `error`. */
  datatype Result<+R, +E> = Success(value: R) | Failure(error: E)

  /** The outcome of an operation that returns nothing: it passes or raises `error`. */
  datatype Outcome<+E> = Pass | Fail(error: E)
}
