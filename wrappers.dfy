/** Small failure-carrying datatypes shared by the other modules. */
module Wrappers {

  /** A value that may be missing: Python's None, JavaScript's null or undefined. */
  datatype Option<+T> = None | Some(value: T)

  /** The result of an operation that either completes or raises an error. */
  datatype Outcome<+E> = Pass | Fail(error: E)
}
