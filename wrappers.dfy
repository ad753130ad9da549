/** Option and Result, the two shapes the preprocessor's Rust code returns. */
module Wrappers {

  datatype Option<+T> = None | Some(value: T)

  /** `Ok` carries the value, `Err` the error (an mdbook `Error` is modelled by its message). */
  datatype Result<+T, +E> = Ok(value: T) | Err(error: E)
}
