/** Option and Result, used for the outcomes of reads and lookups that the
    Python code expresses with None or with a raised exception. */
module Wrappers {

  datatype Option<+T> = None | Some(value: T)

  /** `Failure(error)` carries the text of the exception the Python code would raise. */
  datatype Result<+R, +E> = Success(value: R) | Failure(error: E) {

    predicate IsFailure() {
      Failure?
    }

    function PropagateFailure<U>(): Result<U, E>
      requires Failure?
    {
      Failure(error)
    }

    function Extract(): R
      requires Success?
    {
      value
    }
  }
}
