/** Failure-compatible result types shared by the adapter and the controller. */
module Wrappers {

  /** An optional value; `None` stands for JavaScript's `null` or the empty string. */
  datatype Option<+T> = None | Some(value: T)

  /** The outcome of an operation that yields a value or throws. */
  datatype Result<+R, +E> = Success(value: R) | Failure(error: E) {
    predicate IsFailure() { Failure? }

    function PropagateFailure<U>(): Result<U, E>
      requires Failure?
    {
      Failure(error)
    }

    function Extract(): R
      requires Success?
    {
      value
    }
  }

  /** The outcome of an operation that yields nothing or throws. */
  datatype Outcome<+E> = Pass | Fail(error: E)
}
