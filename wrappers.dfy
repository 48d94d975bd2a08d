/** Failure-carrying result types shared by the whole model. Java's `null`,
    `Optional` and thrown exceptions become these values. */
module Wrappers {

  datatype Option<+T> = None | Some(value: T)

  /** A value or an error, for operations that return something or throw. */
  datatype Result<+R, +E> = Success(value: R) | Failure(error: E)

  /** Success or an error, for `void` operations that may throw. */
  datatype Outcome<+E> = Pass | Fail(error: E)
}
