/** Failure-carrying result types shared by the rest of the model. */
module Outcomes {

  /** A value that may be absent (a Java reference that may be null, an optional result). */
  datatype Option<+T> = None | Some(value: T)

  /** Either a returned value or the exception the Java code throws instead. */
  datatype Result<+T, +E> = Success(value: T) | Failure(error: E)
}
