/** Failure-carrying values standing in for Python's exceptions. */
module Wrappers {

  /** A value, or nothing (a lookup that raised, a parse that failed). */
  datatype Option<+T> = None | Some(value: T)

  /** A value, or the error a call raised and did not catch. */
  datatype Result<+T, +E> = Ok(value: T) | Err(error: E)
}
