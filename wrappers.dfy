/** Wrappers for Python's `None` results and for raised exceptions. */
module Wrappers {

  /** `None` stands for Python's `None`. */
  datatype Option<+T> = None | Some(value: T)

  /** `Failure` stands for an exception that leaves the operation. */
  datatype Result<+R, +E> = Success(value: R) | Failure(error: E)
}
