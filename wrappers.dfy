/** Failure-carrying result types, used where the Python service raises an exception. */
module Wrappers {

  datatype Option<+T> = None | Some(value: T)

  datatype Result<+R, +E> = Success(value: R) | Failure(error: E)

  /** A result without a value: an operation that either completes or raises. */
  datatype Outcome<+E> = Pass | Fail(error: E)
}
