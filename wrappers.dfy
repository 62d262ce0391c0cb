/** Option and Result, used for the zero-time expiry sentinel and for command errors. */
module Wrappers {

  datatype Option<+T> = None | Some(value: T)

  /** A command's outcome: a response line, or the message of the error it returned. */
  datatype Result<+T, +E> = Ok(value: T) | Err(error: E)
}
