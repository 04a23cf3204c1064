/** Failure-carrying datatypes used in place of Python exceptions and missing keys. */
module Wrappers {

  /** A value that may be absent (a dictionary key that may be missing). */
  datatype Option<+T> = None | Some(value: T)

  /** The value of an operation that either returns or raises. */
  datatype Result<+T, +E> = Success(value: T) | Failure(error: E)

  /** The outcome of an operation that returns nothing or raises. */
  datatype Outcome<+E> = Pass | Fail(error: E)
}
