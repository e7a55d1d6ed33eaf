/** Optional and fallible values shared by the model: Go's nil pointers and
    `(value, error)` returns become these datatypes. */
module Wrappers {

  /** A value that may be absent: a nil pointer, or a lookup that missed. */
  datatype Option<+T> = None | Some(value: T)

  /** A value, or the error that stopped it from being produced. */
  datatype Result<+R, +E> = Success(value: R) | Failure(error: E)
}
