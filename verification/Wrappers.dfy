/** The conventional optional value: a Go lookup with its `ok` flag, or a pointer
    that may be nil. */
module Wrappers {
  datatype Option<+T> = None | Some(value: T)

  /** A Go `(value, error)` pair of which exactly one side is meaningful. */
  datatype Result<+T, +E> = Ok(value: T) | Err(error: E)
}
