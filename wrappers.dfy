/** Failure-compatible result types used for the thrown errors of the library. */
module Wrappers {

  datatype Option<+T> = None | Some(value: T)

  datatype Result<+R, +E> = Success(value: R) | Failure(error: E)

  /** Pass, or the error a JavaScript `throw` would have raised. */
  datatype Outcome<+E> = Pass | Fail(error: E)
}
