/** Option and Result values shared by the modules of this model. */
module Wrappers {

  /** A value that may be absent (Python's None, Swift's nil). */
  datatype Option<+T> = None | Some(value: T)

  /** The outcome of a step that returns a value or raises an error. */
  datatype Result<+T, +E> = Ok(value: T) | Err(error: E)
}
