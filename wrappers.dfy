/** Failure-carrying result types shared by the adapter and the registry. */
module Wrappers {

  datatype Option<+T> = None | Some(value: T)

  /** A value, or the error that Python would have raised instead. */
  datatype Result<+R, +E> = Success(value: R) | Failure(error: E)

  /** The outcome of a step that returns nothing but may raise. */
  datatype Outcome<+E> = Pass | Fail(error: E)
}
