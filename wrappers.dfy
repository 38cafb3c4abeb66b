/** Option and Result: the two value-or-failure shapes the rest of the model
    uses for Go's nil pointers and for Go's `(value, error)` returns. */
module Wrappers {

  datatype Option<+T> = None | Some(value: T)

  datatype Result<+R, +E> = Success(value: R) | Failure(error: E)
}
