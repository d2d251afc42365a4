/** Failure-carrying result types shared by the modules of this model. */
module Wrappers {

  /** A value that may be absent: a failed parse, a Python exception, a missing entry. */
  datatype Option<+T> = None | Some(value: T)

  /** A value or the error that the source raises instead of returning it. */
  datatype Result<+R, +E> = Success(value: R) | Failure(error: E)
}
