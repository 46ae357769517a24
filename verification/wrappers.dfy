/** Option and Result, used throughout the gateway model. */
module Wrappers {

  /** A value that may be absent: JavaScript's `null`/`undefined` become `None`. */
  datatype Option<+T> = None | Some(value: T)

  /** The settled outcome of an asynchronous call: a resolved value or a rejection. */
  datatype Result<+T, +E> = Success(value: T) | Failure(error: E)
}
