/** Option, Result and Outcome wrappers used for the exceptions the loaders raise. */
module Wrappers {

  /** A value that may be absent (Python's `None`). */
  datatype Option<+T> = None | Some(value: T)

  /** The outcome of an operation that returns a value or raises an error. */
  datatype Result<+R, +E> = Ok(value: R) | Err(error: E)

  /** The outcome of a check that returns nothing or raises an error. */
  datatype Outcome<+E> = Pass | Fail(error: E)
}
