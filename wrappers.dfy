/** Option, Outcome and Result: the shapes of Swift's optionals and of `throws`. */
module Wrappers {

  datatype Option<+T> = None | Some(value: T)

  /** The outcome of a `throws` function that returns nothing. */
  datatype Outcome<+E> = Pass | Fail(error: E)

  /** The outcome of a `throws` function that returns a value. */
  datatype Result<+R, +E> = Success(value: R) | Failure(error: E)
}
