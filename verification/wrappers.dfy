/** Option and Result datatypes shared by the rest of the model. */
module Wrappers {

  /** An optional value: the Python `None` or a present value. */
  datatype Option<+T> = None | Some(value: T)

  /** A computation that either produced a value or raised an error. */
  datatype Result<+R, +E> = Success(value: R) | Failure(error: E)
}
