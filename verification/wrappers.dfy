/** Optional values and results with a typed error, used for the
    JavaScript `null`/`undefined` cases and for thrown exceptions. */
module Wrappers {

  datatype Option<+T> = None | Some(value: T)

  datatype Result<+T, +E> = Ok(value: T) | Err(error: E)
}
