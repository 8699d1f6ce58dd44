/** Absent-or-present values and success-or-failure results. */
module Wrappers {

  /** A value that may be absent: the model's rendering of the source's `null`. */
  datatype Option<+T> = None | Some(value: T)

  /** The result of an operation that can fail with an error of type E. */
  datatype Result<+R, +E> = Success(value: R) | Failure(error: E)
}
