/** Failure-compatible wrappers: an optional value and a value-or-error result. */
module Wrappers {

  datatype Option<+T> = None | Some(value: T)

  /** The outcome of a call that can fail; usable with `:-`. */
  datatype Result<+T, +E> = Success(value: T) | Failure(error: E) {

    predicate IsFailure() {
      Failure?
    }

    function PropagateFailure<U>(): Result<U, E>
      requires Failure?
    {
      Failure(error)
    }

    function Extract(): T
      requires Success?
    {
      value
    }
  }
}
