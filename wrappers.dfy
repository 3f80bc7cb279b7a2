/** Failure-compatible wrappers used to model Python's `None` and raised exceptions as values. */
module Wrappers {

  /** A value that may be absent (Python `Optional[...]`). */
  datatype Option<+T> = None | Some(value: T)

  /** Either a value or the error that the Python code would raise instead of returning. */
  datatype Result<+T, +E> = Success(value: T) | Failure(error: E) {
    predicate IsFailure() { Failure? }

    function PropagateFailure<U>(): Result<U, E>
      requires Failure?
    {
      Failure(error)
    }

    function Extract(): T
      requires Success?
    {
      value
    }
  }
}
