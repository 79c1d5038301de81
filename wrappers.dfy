/** Failure-carrying values used in place of the exceptions the tracker raises. */
module Wrappers {

  /** A value that may be absent. */
  datatype Option<+T> = None | Some(value: T)

  /** Either a successfully built value or the error that stopped it. */
  datatype Result<+R, +E> = Success(value: R) | Failure(error: E)
}
