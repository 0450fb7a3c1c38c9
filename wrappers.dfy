/** Option and Result, the failure-carrying datatypes the scale's operations return. */
module Wrappers {

  datatype Option<T> = None | Some(value: T)

  /** `Ok` or `Err`; usable with `:-`, which plays the part of Rust's `?`. */
  datatype Result<T, E> = Ok(value: T) | Err(error: E) {

    predicate IsFailure() {
      Err?
    }

    function PropagateFailure<U>(): Result<U, E>
      requires Err?
    {
      Err(error)
    }

    function Extract(): T
      requires Ok?
    {
      value
    }
  }
}
