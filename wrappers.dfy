/** Optional values and results with an error, shared by the other modules. */
module Wrappers {

  datatype Option<+T> = None | Some(value: T)

  /** A value or the exception that stopped its computation. */
  datatype Result<+T, +E> = Ok(value: T) | Err(error: E)
}
