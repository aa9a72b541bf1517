/** Option and Result: the model's stand-ins for pandas NaN and for a raised exception. */
module Wrappers {

  /** `None` plays the part of an undefined (NaN) cell of a pandas column. */
  datatype Option<+T> = None | Some(value: T)

  /** `Failure` is an exception that escapes the current call. */
  datatype Result<+T, +E> = Success(value: T) | Failure(error: E)
}
