/** Failure-carrying values used for the source's exceptions and `None` returns. */
module Wrappers {

  /** A value that may be absent (Python's `None`). */
  datatype Option<+T> = None | Some(value: T)

  /** The outcome of a procedure that returns nothing on success and raises on failure. */
  datatype Outcome<+E> = Pass | Fail(error: E)

  /** A value or the first error that prevented computing it. */
  datatype Result<+T, +E> = Ok(value: T) | Err(error: E)
}
