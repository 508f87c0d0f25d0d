/** Failure-carrying results: a Python exception becomes `Failure(message)`. */
module Wrappers {

  datatype Option<+T> = None | Some(value: T)

  /** The outcome of an operation that either returns a value or raises. */
  datatype Result<+T> = Success(value: T) | Failure(error: string)

  /** The outcome of an operation that returns nothing or raises. */
  datatype Outcome = Pass | Fail(error: string)
}
