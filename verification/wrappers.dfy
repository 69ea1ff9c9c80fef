/** Failure-carrying datatypes used across the model: Option for Python's
    `None`-or-value arguments and Result for operations that raise. */
module Wrappers {

  datatype Option<+T> = None | Some(value: T)

  datatype Result<+R, +E> = Success(value: R) | Failure(error: E)
}
