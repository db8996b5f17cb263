/** Failure-compatible wrappers used by every loader and builder of the model. */
module Results {

  /** A value that may be absent: a nil pointer, an unset YAML field, a failed search. */
  datatype Option<+T> = None | Some(value: T)

  /** The outcome of an operation that returns a Go `error` on failure. */
  datatype Result<+T, +E> = Ok(value: T) | Err(error: E) {

    predicate IsFailure() {
      Err?
    }

    function PropagateFailure<U>(): Result<U, E>
      requires Err?
    {
      Err(error)
    }

    function Extract(): T
      requires Ok?
    {
      value
    }
  }
}
