/** Option and Result values shared by every module of the model. */
module Wrappers {

  datatype Option<+T> = None | Some(value: T)

  /** The outcome of an operation that may throw: the value it returns, or the error it throws. */
  datatype Result<+T, +E> = Success(value: T) | Failure(error: E)
}
