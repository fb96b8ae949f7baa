/** Optional values, standing in for PHP's `null` and JavaScript's missing values. */
module Wrappers {

  datatype Option<+T> = None | Some(value: T)

  /** Either a value or the reason it could not be produced. */
  datatype Result<+T, +E> = Ok(value: T) | Err(error: E)
}
