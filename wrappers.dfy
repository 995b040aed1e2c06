/** Stand-ins for C#'s null references and thrown exceptions. */
module Wrappers {

  /** A reference that may be null: `None` is null. */
  datatype Option<+T> = None | Some(value: T)

  /** The outcome of an operation that either yields a value or throws `error`. */
  datatype Result<+R, +E> = Success(value: R) | Failure(error: E)

  /** The outcome of an operation that yields nothing or throws `error`. */
  datatype Outcome<+E> = Pass | Fail(error: E)
}
