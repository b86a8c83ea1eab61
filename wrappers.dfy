/** Option and Result types for the values and errors the adapter passes around. */
module Wrappers {

  /** A value that may be absent, as a missing key or an `undefined` field is. */
  datatype Option<+T> = None | Some(value: T)

  /** An operation that either yields a value or raises the error `error`. */
  datatype Result<+T, +E> = Ok(value: T) | Err(error: E)
}
