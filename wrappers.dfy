/** Option and Result datatypes shared by the other modules. */
module Wrappers {

  /** A value that may be absent (an attachment's optional name or size). */
  datatype Option<+T> = None | Some(value: T)

  /** The outcome of a host call that may throw: the value, or the exception's text. */
  datatype Result<+T> = Ok(value: T) | Err(error: string)
}
