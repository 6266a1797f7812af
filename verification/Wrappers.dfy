/** The two failure-carrying datatypes the models use in place of Go's
    `(value, ok)` and `(value, error)` pairs. */
module Wrappers {
  datatype Option<+T> = None | Some(value: T)

  datatype Result<+T, +E> = Ok(value: T) | Err(error: E)
}
