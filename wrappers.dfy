/** Option and Result, the failure-carrying datatypes used by the model. */
module Wrappers {

  /** A value that may be absent; `None` stands for Go's `nil`. */
  datatype Option<+T> = None | Some(value: T)

  /** Either a value or an error, for Go's `(value, error)` pairs where exactly one is meaningful. */
  datatype Result<+R, +E> = Success(value: R) | Failure(error: E)
}
