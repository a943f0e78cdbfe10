/** Small failure-carrying datatypes shared by the relay and the client models. */
module Wrappers {

  /** A value that may be absent: an absent JavaScript property, `undefined` or `null`. */
  datatype Option<+T> = None | Some(value: T)

  /** The outcome of a step that either produces a value or stops with an error. */
  datatype Result<+T, +E> = Success(value: T) | Failure(error: E)
}
