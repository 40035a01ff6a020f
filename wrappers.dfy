/** Failure-carrying result types shared by the modules of this model. */
module Wrappers {

  /** A value that may be absent (Python's `None`). */
  datatype Option<+T> = None | Some(value: T)

  /** A value or the error that a raising Python call would have produced. */
  datatype Result<+T, +E> = Success(value: T) | Failure(error: E)

  /** Success or the error of a call whose only observable result is raising or not. */
  datatype Outcome<+E> = Pass | Fail(error: E)
}
