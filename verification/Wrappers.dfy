/** Failure-compatible results, standing for the source's optional values and error returns. */
module Wrappers {

  datatype Option<+T> = None | Some(value: T)

  /** The outcome of a transaction: the committed value, or a rollback with its reason. */
  datatype Result<+T, +E> = Ok(value: T) | Err(error: E) {

    predicate IsFailure() {
      Err?
    }

    function PropagateFailure<U>(): Result<U, E>
      requires Err?
    {
      Err(error)
    }

    function Extract(): T
      requires Ok?
    {
      value
    }
  }
}
