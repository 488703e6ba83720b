/** Option and Result values used for the source's `undefined` results and thrown errors. */
module Wrappers {

  /** A value that may be absent (`undefined` / `null` in the source). */
  datatype Option<+T> = None | Some(value: T)

  /** The outcome of an operation that may throw or report an error instead. */
  datatype Result<+R, +E> = Ok(value: R) | Err(error: E)
}
