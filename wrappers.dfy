/** Wrappers shared by the modules of the usury checker model. */
module Wrappers {

  /** A value that may be absent: the result of a `TryParse`, a nullable reference. */
  datatype Option<+T> = None | Some(value: T)

  /** A computation that either succeeds with a value or fails with an error. */
  datatype Result<+R, +E> = Success(value: R) | Failure(error: E)
}
