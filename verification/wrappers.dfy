/** Option and Result, the failure-carrying datatypes used throughout the model. */
module Wrappers {

  /** A value that may be absent: the model of a nullable field or a `dict.get` miss. */
  datatype Option<+T> = None | Some(value: T)

  /** Either a value or the error that an operation raised instead of returning one. */
  datatype Result<+R, +E> = Ok(value: R) | Err(error: E)
}
