/** Failure-compatible wrappers shared by the client and the result reader. */
module Wrappers {

  /** A value that may be absent: PHP's NULL for nullable arguments, or a missing XML child. */
  datatype Option<+T> = None | Some(value: T)

  /** The outcome of a call that either returns a value or throws. */
  datatype Result<+T, +E> = Success(value: T) | Failure(error: E)

  /** The outcome of a validation step that returns nothing or throws. */
  datatype Outcome<+E> = Pass | Fail(error: E)
}
