/** Option and Result types shared by every module of the model. */
module Wrappers {

  /** A value that may be absent: a null result in the C++ front end, `Option` in the Rust toolchain. */
  datatype Option<+T> = None | Some(value: T)

  /** The outcome of a fallible Rust operation: `Ok(value)` or `Err(error)`. */
  datatype Result<+T, +E> = Ok(value: T) | Err(error: E)
}
