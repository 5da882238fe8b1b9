/** Optional values and value-or-error results, standing for Go's
    `(value, ok)` and `(value, error)` pairs. */
module Wrappers {

  datatype Option<+T> = None | Some(value: T)

  /** A Go `(value, error)` pair where the error is non-nil: the error is its text. */
  datatype Result<+T, +E> = Ok(value: T) | Err(error: E)
}
