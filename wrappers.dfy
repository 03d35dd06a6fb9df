/** Failure-carrying values used where the wrapper throws or a Win32 call can fail. */
module Wrappers {

  datatype Option<+T> = None | Some(value: T)

  /** The value of an operation that either completes or throws. */
  datatype Result<+R, +E> = Success(value: R) | Failure(error: E)

  /** The value of an operation that returns nothing, or throws. */
  datatype Outcome<+E> = Pass | Fail(error: E)
}
