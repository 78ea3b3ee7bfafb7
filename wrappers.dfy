/** Option and Result: the model's null and exception carriers. */
module Wrappers {

  /** A possibly-null reference: `None` stands for C#'s `null`. */
  datatype Option<+T> = None | Some(value: T)

  /** The outcome of a call that may throw: `Failure` carries the exception. */
  datatype Result<+R, +E> = Success(value: R) | Failure(error: E) {
    predicate IsFailure() {
      Failure?
    }

    function PropagateFailure<U>(): Result<U, E>
      requires Failure?
    {
      Failure(error)
    }

    function Extract(): R
      requires Success?
    {
      value
    }
  }
}
