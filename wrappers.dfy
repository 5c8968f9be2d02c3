/** Option and Result, the two failure-carrying datatypes the model uses. */
module Wrappers {

  datatype Option<+T> = None | Some(value: T)

  /** The outcome of an operation that either yields a value or fails with an error message. */
  datatype Result<+T, +E> = Success(value: T) | Failure(error: E)
}
