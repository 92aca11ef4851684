/** Failure-carrying result types shared by every decoder of the model.
    The Rust source unwraps every conversion and panics on failure; the model
    returns these values instead. */
module Wrappers {

  datatype Option<+T> = None | Some(value: T)

  datatype Result<+R, +E> = Success(value: R) | Failure(error: E)

  /** The outcome of an operation that changes state and returns nothing. */
  datatype Outcome<+E> = Pass | Fail(error: E)
}
