/** Option and Result, the two failure-carrying wrappers the model uses. */
module Wrappers {

  /** Swift's `T?`: a value or nil. */
  datatype Option<+T> = None | Some(value: T)

  /** A value or the error that stopped its computation. */
  datatype Result<+R, +E> = Success(value: R) | Failure(error: E)
}
