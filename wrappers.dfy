/** Failure-carrying values shared by every module. */
module Wrappers {

  /** A value that may be absent (Go's nil pointer). */
  datatype Option<+T> = None | Some(value: T)

  /** The result of an operation that returns only an error (Go's `error`, nil on success). */
  datatype Outcome<+E> = Pass | Fail(error: E)

  /** A value or an error (Go's `(T, error)` pair when exactly one of them is set). */
  datatype Result<+R, +E> = Success(value: R) | Failure(error: E)
}
