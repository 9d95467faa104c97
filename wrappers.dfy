/** An optional value and a value-or-error, shared by the modules of this model. */
module Wrappers {

  /** An optional value: a Python `None` or a present value. */
  datatype Option<+T> = None | Some(value: T)

  /** A value or the exception the script raises instead of returning. */
  datatype Result<+R, +E> = Success(value: R) | Failure(error: E)
}
