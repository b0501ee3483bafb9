/** Option and Result, the two failure-carrying datatypes used by the model. */
module Wrappers {

  /** A value that may be absent: a NULL pointer or an undefined argument. */
  datatype Option<+T> = None | Some(value: T)

  /** The outcome of an operation that can be rejected. */
  datatype Result<+R, +E> = Success(value: R) | Failure(error: E)
}
