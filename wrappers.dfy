/** Option and Result values used for "may be missing" and "may fail" inputs and outcomes. */
module Wrappers {

  /** A value that may be absent (a fixture file that does not exist, a PHP null field). */
  datatype Option<+T> = None | Some(value: T)

  /** The outcome of a call that either succeeds with a value or fails with an error. */
  datatype Result<+R, +E> = Success(value: R) | Failure(error: E)
}
