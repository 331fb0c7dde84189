/** Optional values and success-or-error results, the shapes that Node-style
    callbacks `callback(err, value)` are given here. */
module Wrappers {

  datatype Option<+T> = None | Some(value: T)

  datatype Result<+T, +E> = Ok(value: T) | Err(error: E)
}
