/** Option and Result, the two failure-carrying types used throughout the model. */
module Wrappers {

  /** A value that may be missing. */
  datatype Option<+T> = None | Some(value: T)

  /** The normal completion of a JavaScript call (`Ok`), or the exception it throws (`Err`). */
  datatype Result<+T> = Ok(value: T) | Err(error: string)
}
