/** Failure-carrying datatypes used to model the exceptions the services raise. */
module Wrappers {

  /** A value that may be absent, such as Python's `None` for an optional argument. */
  datatype Option<+T> = None | Some(value: T)

  /** A computed value, or the error that the code would have raised instead. */
  datatype Result<+T, +E> = Success(value: T) | Failure(error: E)

  /** The outcome of an effect that returns nothing when it succeeds. */
  datatype Outcome<+E> = Pass | Fail(error: E)
}
