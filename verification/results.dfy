/** Failure-compatible wrappers used by every module of the model: Go's
    `(value, error)` pairs become `Result`, and Go's nil pointers and nil
    maps become `Option`. */
module Results {

  /** An optional value: `None` stands for a Go nil pointer or nil map. */
  datatype Option<+T> = None | Some(value: T)

  /** The outcome of a Go call returning `(T, error)`: `Ok` when the error is
      nil, `Err` otherwise (the Go value returned beside a non-nil error is
      not observed by callers and is not kept). */
  datatype Result<+T, +E> = Ok(value: T) | Err(error: E) {

    predicate IsFailure() {
      Err?
    }

    function PropagateFailure<U>(): Result<U, E>
      requires Err?
    {
      Err(error)
    }

    function Extract(): T
      requires Ok?
    {
      value
    }
  }
}
