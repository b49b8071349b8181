/** Option and Result, the failure-compatible wrappers the mapping functions return. */
module Wrappers {

  datatype Option<+T> = None | Some(value: T)

  /** Either the value a step computed, or the exception it raised. */
  datatype Result<+T, +E> = Ok(value: T) | Err(error: E) {

    predicate IsFailure() {
      Err?
    }

    function PropagateFailure<U>(): Result<U, E>
      requires Err?
    {
      Err(error)
    }

    function Extract(): T
      requires Ok?
    {
      value
    }
  }
}
