/** Failure-compatible helper datatypes shared by every module of the model. */
module Wrappers {

  /** A value that may be missing: a C++ null pointer, an absent map entry. */
  datatype Option<+T> = None | Some(value: T)

  /** The outcome of an operation that reports failure instead of a value. */
  datatype Result<+T, +E> = Ok(value: T) | Err(error: E)
}
