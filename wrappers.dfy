/** Failure-carrying values used to model the source's exceptions. */
module Wrappers {

  datatype Option<+T> = None | Some(value: T)

  datatype Result<+T, +E> = Success(value: T) | Failure(error: E)

  /** The result of a call that returns nothing or raises `error`. */
  datatype Outcome<+E> = Pass | Fail(error: E)
}
