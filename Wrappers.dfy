/** Optional values and error-or-value results, standing in for Go's nil
    pointers and its (value, error) return pairs. */
module Wrappers {

  /** A value that may be absent; `None` plays the role of a nil pointer. */
  datatype Option<+T> = None | Some(value: T)

  /** Either a value or the error that prevented computing it. */
  datatype Result<+T, +E> = Ok(value: T) | Err(error: E)
}
