/** Option, Result and Outcome: how the model writes JavaScript's `undefined`
    results and thrown errors. An error carries the message of the `Error`
    the source would throw. */
module Wrappers {

  datatype Option<+T> = None | Some(value: T)

  /** A value, or the message of the error thrown instead of returning one. */
  datatype Result<+T> = Success(value: T) | Failure(error: string)

  /** Completion of a statement that returns nothing but may throw. */
  datatype Outcome = Pass | Fail(error: string)
}
