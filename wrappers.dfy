/** Option and Result, used for the values a JavaScript `undefined` or a
    thrown exception stands for in the modelled code. */
module Wrappers {

  /** A value that may be absent (`undefined` in the source). */
  datatype Option<+T> = None | Some(value: T)

  /** A value, or the message of the exception that was thrown instead. */
  datatype Result<+R, +E> = Success(value: R) | Failure(error: E)
}
