/** Option and Result: `undefined` lookups and thrown errors, as values. */
module Wrappers {

  datatype Option<+T> = None | Some(value: T)

  /** A step that either produces a value or throws; usable with `:-`. */
  datatype Result<+T, +E> = Success(value: T) | Failure(error: E) {

    predicate IsFailure() {
      Failure?
    }

    function PropagateFailure<U>(): Result<U, E>
      requires Failure?
    {
      Failure(error)
    }

    function Extract(): T
      requires Success?
    {
      value
    }
  }
}
