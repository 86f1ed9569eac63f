/** Failure-compatible result type used for the C++ exceptions of the configuration library. */
module Wrappers {

  datatype Option<+T> = None | Some(value: T)

  /** Either a value or the error the original code throws. */
  datatype Result<+T, +E> = Ok(value: T) | Err(error: E) {

    predicate IsFailure() {
      Err?
    }

    function PropagateFailure<U>(): Result<U, E>
      requires Err?
    {
      Err(error)
    }

    function Extract(): T
      requires Ok?
    {
      value
    }
  }
}
