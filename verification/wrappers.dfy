/** Failure-compatible results for the dataset helpers.

    The helpers signal failure by throwing `ged::Error` carrying a message; here
    an error is a value and every helper that may throw returns one of the two
    datatypes below, usable with `:-`.
 */
module Wrappers {

  /** The exception `ged::Error`, reduced to the message it is built from. */
  datatype Error = Error(message: string)

  /** The outcome of a check that returns nothing on success (a `void` function that may throw). */
  datatype Outcome = Pass | Fail(error: Error) {

    predicate IsFailure() {
      Fail?
    }

    function PropagateFailure<U>(): Result<U>
      requires Fail?
    {
      Failure(error)
    }
  }

  /** A value, or the error that was thrown instead of returning one. */
  datatype Result<T> = Success(value: T) | Failure(error: Error) {

    predicate IsFailure() {
      Failure?
    }

    function PropagateFailure<U>(): Result<U>
      requires Failure?
    {
      Failure(error)
    }

    function Extract(): T
      requires Success?
    {
      value
    }
  }
}
