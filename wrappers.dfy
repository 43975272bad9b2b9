/** Option, Result and Outcome: the shapes used for the driver's null values and thrown errors. */
module Wrappers {

  datatype Option<+T> = None | Some(value: T)

  /** A value, or the error a JavaScript call would have thrown or rejected with. */
  datatype Result<+T, +E> = Success(value: T) | Failure(error: E)

  /** Completion of a call that resolves with no value. */
  datatype Outcome<+E> = Pass | Fail(error: E)
}
