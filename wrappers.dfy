/** Failure-carrying values shared by every module of the model. */
module Wrappers {

  /** A value that may be absent; `None` also stands for a pandas NaN. */
  datatype Option<+T> = None | Some(value: T)

  /** The outcome of an operation that raises in the source. */
  datatype Result<+R, +E> = Success(value: R) | Failure(error: E)
}
