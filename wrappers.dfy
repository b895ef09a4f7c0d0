/** Option and Result, the two failure-carrying wrappers the other modules use. */
module Wrappers {

  datatype Option<+T> = None | Some(value: T)

  /** A Python call that either returns a value or raises the given error. */
  datatype Result<+T, +E> = Success(value: T) | Failure(error: E) {

    predicate IsFailure() {
      Failure?
    }

    function PropagateFailure<U>(): Result<U, E>
      requires Failure?
    {
      Failure(error)
    }

    function Extract(): T
      requires Success?
    {
      value
    }
  }
}
