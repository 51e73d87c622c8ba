/** Failure-carrying result types used for the fatal error paths of the tool. */
module Wrappers {

  datatype Option<+T> = None | Some(value: T)

  /** A computed value, or the error that aborts the run. */
  datatype Result<+R, +E> = Success(value: R) | Failure(error: E)

  /** A check that either passes or aborts with an error. */
  datatype Outcome<+E> = Pass | Fail(error: E)
}
