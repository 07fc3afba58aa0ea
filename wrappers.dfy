/** Failure-compatible result types shared by every module of the model. */
module Wrappers {

  datatype Option<T> = None | Some(value: T)

  /** `Err` carries the diagnostic of a failed operation (a Rust `Err` or a panic message). */
  datatype Result<T, E> = Ok(value: T) | Err(error: E) {

    predicate IsFailure() {
      Err?
    }

    function PropagateFailure<U>(): Result<U, E>
      requires Err?
    {
      Err(error)
    }

    function Extract(): T
      requires Ok?
    {
      value
    }
  }
}
