/** Failure-carrying return values: Go's `(value, error)` pairs and nil-able results. */
module Wrappers {

  datatype Option<+T> = None | Some(value: T)

  /** `Success(v)` is a nil error with value `v`; `Failure(e)` is a non-nil error `e`. */
  datatype Result<+R, +E> = Success(value: R) | Failure(error: E)
}
