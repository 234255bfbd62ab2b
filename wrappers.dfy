/** Option and Result, shared by the modules of this project. */
module Wrappers {

  /** A value that may be absent: stands for a Java reference that may be null. */
  datatype Option<+T> = None | Some(value: T)

  /** The outcome of an operation that may raise an exception of type E. */
  datatype Result<+R, +E> = Success(value: R) | Failure(error: E)
}
