/** Option and Result values used for absent data and for exceptions a call raises. */
module Wrappers {

  datatype Option<+T> = None | Some(value: T)

  /** `Failure(e)` stands for an exception whose message (`str(e)`) is `e`. */
  datatype Result<+R, +E> = Success(value: R) | Failure(error: E)
}
