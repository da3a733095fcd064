/** The optional value and the result-or-error types shared by the other modules. */
module Wrappers {

  /** A value that may be absent, as Python's `None` is used by the source. */
  datatype Option<+T> = None | Some(value: T)

  /** The outcome of an operation that either returns a value or raises. */
  datatype Result<+T, +E> = Ok(value: T) | Err(error: E)
}
