/** Failure-carrying datatypes shared by the whole model. */
module Wrappers {

  /** A value that may be absent: an unset query parameter, a missing row. */
  datatype Option<+T> = None | Some(value: T)

  /** The outcome of an operation that either produces a value or fails with an error. */
  datatype Result<+R, +E> = Success(value: R) | Failure(error: E)
}
