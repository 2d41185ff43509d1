/** Option and Result, the two failure-carrying datatypes used throughout the model. */
module Wrappers {

  /** A value that may be absent (JavaScript's `undefined`). */
  datatype Option<+T> = None | Some(value: T)

  /** The outcome of an operation that may fail: a resolved or a rejected promise. */
  datatype Result<+R, +E> = Success(value: R) | Failure(error: E)
}
