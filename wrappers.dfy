/** Optional values and pass/fail outcomes used throughout the model. */
module Wrappers {

  datatype Option<+T> = None | Some(value: T)

  /** The result of an operation that either succeeds or raises an error. */
  datatype Outcome<+E> = Pass | Fail(error: E)
}
