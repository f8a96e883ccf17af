/** Failure-compatible wrappers used across the model. */
module Wrappers {

  /** A value that may be absent: JavaScript's `undefined` or `null` results. */
  datatype Option<+T> = None | Some(value: T)

  /** A value or the error that was thrown instead of it. */
  datatype Result<+T, +E> = Success(value: T) | Failure(error: E)
}
