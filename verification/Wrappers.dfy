/** Optional values and the two-way outcome that stands for a returned value or a raised exception. */
module Wrappers {
  datatype Option<+T> = None | Some(value: T)

  datatype Result<+T, +E> = Ok(value: T) | Err(error: E)
}
