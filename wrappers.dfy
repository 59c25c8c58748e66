/** Option and Result, the two failure-carrying wrappers the model uses. */
module Wrappers {

  /** A value that may be absent: a missing JSON key or a Python `None`. */
  datatype Option<+T> = None | Some(value: T)

  /** Either a value or the error an operation raised. */
  datatype Result<+T, +E> = Ok(value: T) | Err(error: E)
}
