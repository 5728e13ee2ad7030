/** Failure-carrying return values used across the model. */
module Util {

  datatype Option<+T> = None | Some(value: T)

  /** Success carries a value; Failure carries what a Python exception would report. */
  datatype Result<+T, +E> = Success(value: T) | Failure(error: E)
}
