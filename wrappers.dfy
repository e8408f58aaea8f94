/** Failure-carrying values shared by the model's modules. */
module Wrappers {

  /** A value that may be absent (Python's `None`). */
  datatype Option<T> = None | Some(value: T)

  /** A computed value, or the error that stopped the computation. */
  datatype Result<T, E> = Ok(value: T) | Err(error: E)
}
