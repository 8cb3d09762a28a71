/** Option and result wrappers shared by the other modules. */
module Wrappers {

  /** A value that may be missing: JavaScript's `undefined` is `None`. */
  datatype Option<+T> = None | Some(value: T)

  /** The outcome of an operation that either produces a value or reports an error. */
  datatype Result<+R, +E> = Success(value: R) | Failure(error: E)
}
