/** Failure-carrying result types used across the model. */
module Wrappers {

  /** A computation that either yields a value or fails with an error (a raised exception). */
  datatype Result<+T, +E> = Success(value: T) | Failure(error: E)

  /** A computation with no value that either passes or fails with an error. */
  datatype Outcome<+E> = Pass | Fail(error: E)
}
