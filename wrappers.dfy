/** Failure-compatible result types used to model Python's "return or raise". */
module Wrappers {

  /** A value that may be absent; models `dict.get` returning a value or `None`. */
  datatype Option<+T> = None | Some(value: T)

  /** A function that either returns a value or raises an exception. */
  datatype Result<+R, +E> = Success(value: R) | Failure(error: E)

  /** A procedure that returns nothing (`None` in Python) or raises an exception. */
  datatype Outcome<+E> = Pass | Fail(error: E)
}
