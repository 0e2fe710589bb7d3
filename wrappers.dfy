/**
 * Optional values (a JSON field that may be absent: `undefined` or `null`)
 * and results that are either a value or an error.
 */
module Wrappers {

  datatype Option<+T> = None | Some(value: T)

  datatype Result<+T, +E> = Ok(value: T) | Err(error: E)
}
