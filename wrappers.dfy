/** Option and Result: an explicit "absent" marker for every optional field of
    a decoded message, and an explicit error path for every step that can fail. */
module Wrappers {

  /** A value that may be absent: the model's stand-in for a JavaScript
      `undefined` or `null`. */
  datatype Option<+T> = None | Some(value: T)

  /** The outcome of a step that either produces a value or fails. */
  datatype Result<+R, +E> = Success(value: R) | Failure(error: E)
}
