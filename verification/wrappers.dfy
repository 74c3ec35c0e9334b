/** Failure-compatible result types shared by every module of the model. */
module Wrappers {

  /** An optional value; `None` plays the part of JavaScript's `undefined`. */
  datatype Option<+T> = None | Some(value: T)

  /** Either a value or the error a JavaScript function would have thrown. */
  datatype Result<+T, +E> = Success(value: T) | Failure(error: E) {

    predicate IsFailure() {
      Failure?
    }

    function PropagateFailure<U>(): Result<U, E>
      requires Failure?
    {
      Failure(error)
    }

    function Extract(): T
      requires Success?
    {
      value
    }
  }
}
