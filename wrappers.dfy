/** Option and Result values shared by the modules of this model. */
module Wrappers {

  /** A value that may be absent (Python's None, a C# null). */
  datatype Option<+T> = None | Some(value: T)

  /** The outcome of an operation that may raise an exception in the source. */
  datatype Result<+R, +E> = Ok(value: R) | Err(error: E)
}
