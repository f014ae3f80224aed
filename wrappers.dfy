/** Wrappers shared by every module of the model. */
module Wrappers {

  /** A value that may be missing: the model's `null` / "no row". */
  datatype Option<+T> = None | Some(value: T)

  /** The outcome of an operation that can throw: `Failure` carries the thrown message. */
  datatype Result<+T, +E> = Success(value: T) | Failure(error: E)
}
