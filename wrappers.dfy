/** Optional values and results with an error, standing in for Go's nil pointers and
    its (value, error) return pairs. */
module Wrappers {

  datatype Option<+T> = None | Some(value: T)

  /** Ok carries the value of a Go call whose error was nil; Err carries the non-nil error. */
  datatype Result<+T, +E> = Ok(value: T) | Err(error: E)
}
