/** Result types shared by the logger model. */
module Wrappers {

  /** A value that may be absent. */
  datatype Option<+T> = None | Some(value: T)

  /** A computation that either produces a value or fails with an error. */
  datatype Result<+R, +E> = Success(value: R) | Failure(error: E)

  /** A computation that produces no value and may fail with an error. */
  datatype Outcome<+E> = Pass | Fail(error: E)
}
