/** Failure-compatible result and optional-value types used throughout the model. */
module Wrappers {

  datatype Option<+T> = None | Some(value: T)

  /** `Ok` carries a value; `Err` carries the fault that the Python code would raise. */
  datatype Result<+T, +E> = Ok(value: T) | Err(error: E) {

    predicate IsFailure() {
      Err?
    }

    function PropagateFailure<U>(): Result<U, E>
      requires Err?
    {
      Err(error)
    }

    function Extract(): T
      requires Ok?
    {
      value
    }
  }
}
