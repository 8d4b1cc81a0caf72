/** Optional values and results with an error, usable with `:-`. */
module Wrappers {

  /** A value that may be missing: pandas' NaN / None cells. */
  datatype Option<+T> = None | Some(value: T)

  /** The outcome of an operation that Python would end by raising. */
  datatype Result<+R, +E> = Success(value: R) | Failure(error: E) {
    predicate IsFailure() {
      Failure?
    }

    function PropagateFailure<U>(): Result<U, E>
      requires Failure?
    {
      Failure(error)
    }

    function Extract(): R
      requires Success?
    {
      value
    }
  }
}
