/** Option and Result, the failure-carrying values used throughout the model. */
module Wrappers {

  datatype Option<+T> = None | Some(value: T)

  /** The outcome of an operation that either returns a value or throws an exception with a message. */
  datatype Result<+T, +E> = Success(value: T) | Failure(error: E)
}
