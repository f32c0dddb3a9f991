/** Optional values and results with an error, used in place of Python's
    `None` and raised exceptions. */
module Wrappers {

  /** A value that may be absent, like a Python `Optional` that may hold `None`. */
  datatype Option<+T> = None | Some(value: T)

  /** The outcome of a step that either yields a value or raises an error. */
  datatype Result<+R, +E> = Success(value: R) | Failure(error: E)
}
