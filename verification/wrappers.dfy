/** Option, Result and Outcome: Java's nulls and raised exceptions as values. */
module Wrappers {

  /** A Java reference that may be null: None stands for null. */
  datatype Option<+T> = None | Some(value: T)

  /** A call that either returns a value or raises an exception. */
  datatype Result<+T, +E> = Success(value: T) | Failure(error: E)

  /** A void call that either returns normally or raises an exception. */
  datatype Outcome<+E> = Pass | Fail(error: E)
}
