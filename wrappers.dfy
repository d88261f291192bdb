/** Failure-compatible result types shared by every module of the model. */
module Wrappers {

  /** A value that may be absent (`undefined`, `null` or a missing key in the source). */
  datatype Option<+T> = None | Some(value: T)

  /** The outcome of an operation that either produces a value or stops with a reason. */
  datatype Result<+T, +E> = Success(value: T) | Failure(error: E)
}
