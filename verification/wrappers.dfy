/** Option and Result, used throughout the model. */
module Wrappers {

  /** A value that may be absent: JavaScript's `undefined`/`null` or a missing JSON field. */
  datatype Option<+T> = None | Some(value: T)

  /** The outcome of an operation that may throw. */
  datatype Result<+R, +E> = Success(value: R) | Failure(error: E)
}
