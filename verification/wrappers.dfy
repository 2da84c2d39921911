/** The optional and either-or values shared by every module of the model. */
module Wrappers {

  /** A value that may be absent: the model's stand-in for `undefined` and `null`. */
  datatype Option<+T> = None | Some(value: T)

  /** The outcome of an operation that either produces a value or throws an error. */
  datatype Result<+T, +E> = Success(value: T) | Failure(error: E)
}
