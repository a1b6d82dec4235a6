/** Optional values and results shared by the model. */
module Wrappers {

  /** An optional value: Go's `(value, ok)` pairs and nil pointers. */
  datatype Option<+T> = None | Some(value: T)

  /** A value or an error: Go's `(value, error)` pairs. */
  datatype Result<+R, +E> = Success(value: R) | Failure(error: E)
}
