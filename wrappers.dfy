/** The Option and Result value types shared by the model. */
module Wrappers {

  /** A value that may be missing: JavaScript's `undefined`/`null` is `None`. */
  datatype Option<+T> = None | Some(value: T)

  /** The outcome of an operation that can be refused with a message. */
  datatype Result<+T, +E> = Success(value: T) | Failure(error: E)
}
