/** Failure-carrying wrappers shared by the other modules. */
module Wrappers {

  datatype Option<+T> = None | Some(value: T)

  /** A Python call that either returns a value or raises an exception
      whose `str()` is the error message. */
  datatype Result<+R, +E> = Success(value: R) | Failure(error: E)

  /** A Python call that returns nothing useful or raises. */
  datatype Outcome<+E> = Pass | Fail(error: E)
}
