/** Option and Result: the error paths of the probe and of its evaluators. */
module Wrappers {

  datatype Option<+T> = None | Some(value: T)

  /** `Failure` stands for a Python exception: the value is its description. */
  datatype Result<+R, +E> = Success(value: R) | Failure(error: E)
}
