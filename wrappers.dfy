/** Absence and error values shared by the other modules. */
module Wrappers {

  /** A value that may be missing: Python's `None` or a database lookup that found nothing. */
  datatype Option<+T> = None | Some(value: T)

  /** The outcome of a call that either returns a value or raises. */
  datatype Result<+T, +E> = Ok(value: T) | Err(error: E)
}
