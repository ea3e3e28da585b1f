/** Optional values and success-or-failure results, used for Python's `None`
    and for the HTTP errors the handlers raise. */
module Wrappers {

  datatype Option<+T> = None | Some(value: T)

  datatype Result<+T, +E> = Ok(value: T) | Err(error: E)
}
