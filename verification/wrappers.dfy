/** Optional values and results with an error message, for Go's nil pointers
    and its (value, error) returns. */
module Wrappers {

  datatype Option<T> = None | Some(value: T)

  datatype Result<T> = Ok(value: T) | Err(error: string)
}
