/** Java's null, thrown exceptions and pass/fail outcomes, as values. */
module Wrappers {

  /** A reference that may be null: `None` is Java's null. */
  datatype Option<+T> = None | Some(value: T)

  /** A value or the exception thrown instead of returning it. */
  datatype Result<+T, +E> = Ok(value: T) | Err(error: E)

  /** A `void` method that either returns normally or throws. */
  datatype Outcome<+E> = Pass | Fail(error: E)
}
