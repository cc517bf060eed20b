/** Failure-compatible result types used for the exceptions the transformer throws. */
module Wrappers {

  /** A value that may be absent: a null pointer in the transformer. */
  datatype Option<+T> = None | Some(value: T)

  /** The outcome of a step that returns a value or throws. */
  datatype Result<+T, +E> = Success(value: T) | Failure(error: E) {
    predicate IsFailure() { Failure? }

    function PropagateFailure<U>(): Result<U, E>
      requires Failure?
    {
      Failure(error)
    }

    function Extract(): T
      requires Success?
    {
      value
    }
  }

  /** The outcome of a step that only updates state, or throws. */
  datatype Outcome<+E> = Pass | Fail(error: E)
}
