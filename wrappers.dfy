/** Optional values and pass/fail outcomes shared by the model. */
module Wrappers {

  /** A value that may be absent: a nullable database column, a Python `None`. */
  datatype Option<+T> = None | Some(value: T)

  /** The result of an operation that either completes or raises an error. */
  datatype Outcome<+E> = Pass | Fail(error: E)
}
