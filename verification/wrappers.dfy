/** Option and Result, the two sum types the client's Rust signatures are built from. */
module Wrappers {

  datatype Option<+T> = None | Some(value: T)

  /** Failure-compatible, so that `:-` models Rust's `?` operator. */
  datatype Result<+T, +E> = Ok(value: T) | Err(error: E) {

    predicate IsFailure()
    {
      Err?
    }

    function PropagateFailure<U>(): Result<U, E>
      requires Err?
    {
      Err(error)
    }

    function Extract(): T
      requires Ok?
    {
      value
    }
  }
}
