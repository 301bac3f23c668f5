/** Option and Outcome, used for the absent values and error returns of the model. */
module Wrappers {

  datatype Option<+T> = None | Some(value: T)

  /** The result of an operation that either succeeds with no value or fails with an error. */
  datatype Outcome<+E> = Pass | Fail(error: E)
}
