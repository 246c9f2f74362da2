/** Option and Result datatypes used to model absent fields and rejected promises. */
module Wrappers {

  datatype Option<+T> = None | Some(value: T)

  /** A settled promise: fulfilled with a value, or rejected with an error value. */
  datatype Result<+R, +E> = Success(value: R) | Failure(error: E)
}
