/** Failure-carrying datatypes used to model values that may be absent
    and JavaScript calls that may throw or reject. */
module Wrappers {

  /** A value that may be absent (`null` or `undefined` in the source). */
  datatype Option<+T> = None | Some(value: T)

  /** The settled state of a call that returns a value or throws. */
  datatype Result<+R, +E> = Success(value: R) | Failure(error: E)

  /** The settled state of a call that returns nothing or throws. */
  datatype Outcome<+E> = Pass | Fail(error: E)
}
