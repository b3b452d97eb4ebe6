/** Option and Result, the two wrappers the rest of the model uses for
    JavaScript's `null`/`undefined` and for a promise that resolves or rejects. */
module Wrappers {

  /** A value that may be absent (`null` or `undefined` in the source). */
  datatype Option<+T> = None | Some(value: T)

  /** The settled outcome of a remote call: resolved with a value or rejected with an error. */
  datatype Result<+R, +E> = Success(value: R) | Failure(error: E)
}
