/** Optional values and results with an error, for the Go pattern of returning
    a nil result or an error next to a value. */
module Wrappers {

  datatype Option<+T> = None | Some(value: T)

  datatype Result<+T, +E> = Ok(value: T) | Err(error: E)
}
