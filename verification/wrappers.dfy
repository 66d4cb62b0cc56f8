/** Failure-compatible result types used by every layer of the model:
    resolution failures are values, never control-flow jumps. */
module Wrappers {

  datatype Option<+T> = None | Some(value: T)

  datatype Result<+R, +E> = Success(value: R) | Failure(error: E) {

    predicate IsFailure() {
      Failure?
    }

    function PropagateFailure<U>(): Result<U, E>
      requires Failure?
    {
      Failure(error)
    }

    function Extract(): R
      requires Success?
    {
      value
    }
  }

  /** Pass/Fail result of a check that produces no value. */
  datatype Outcome<+E> = Pass | Fail(error: E)
}
