/** Failure-carrying datatypes used in place of the C++ exceptions and Python None. */
module Wrappers {

  datatype Option<+T> = None | Some(value: T)

  /** A computation that either produced a value or raised an error. */
  datatype Result<+T, +E> = Success(value: T) | Failure(error: E)

  /** A statement that either completed or raised an error. */
  datatype Outcome<+E> = Pass | Fail(error: E)
}
