/** Option and Result, shared by every module of the model. */
module Wrappers {

  /** A value that may be absent: a null pointer, an empty `Option`, a failed lookup. */
  datatype Option<+T> = None | Some(value: T)

  /** A value or the error that prevented it. */
  datatype Result<+T, +E> = Ok(value: T) | Err(error: E)
}
