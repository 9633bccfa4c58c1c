/** Option and Result values shared by every module of the model. */
module Wrappers {

  /** A value that may be absent: a Go nil pointer or a missing entry. */
  datatype Option<T> = None | Some(value: T)

  /** The outcome of a Go call that returns a value and an error. */
  datatype Result<T, E> = Ok(value: T) | Err(error: E)
}
