/** Optional values and the outcome of an operation that may raise. */
module Wrappers {

  datatype Option<+T> = None | Some(value: T)

  /** A value, or the exception raised instead. */
  datatype Result<+T, +E> = Ok(value: T) | Err(error: E)

}
