/** Option and Result, the failure-compatible wrappers used throughout the model. */
module Wrappers {

  datatype Option<+T> = None | Some(value: T)

  /** The outcome of an operation that can raise: a value, or the error it raised. */
  datatype Result<+R, +E> = Success(value: R) | Failure(error: E)
}
