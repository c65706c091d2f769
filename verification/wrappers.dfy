/** Option and Result values used throughout the model. */
module Wrappers {

  /** A value that may be missing, like Python's `None`. */
  datatype Option<+T> = None | Some(value: T)

  /** The outcome of a step that may raise: its value, or the text of the exception. */
  datatype Result<+T> = Ok(value: T) | Err(message: string)
}
