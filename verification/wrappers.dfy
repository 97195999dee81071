/** Failure-carrying result types shared by the game and the deposit agent. */
module Wrappers {

  datatype Option<+T> = None | Some(value: T)

  /** The outcome of a call that returns a value or reverts with an error. */
  datatype Result<+T, +E> = Success(value: T) | Failure(error: E)

  /** The outcome of a call that returns nothing or reverts with an error. */
  datatype Outcome<+E> = Pass | Fail(error: E)
}
