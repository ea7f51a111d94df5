/** Option and Result types shared by every decoder of the model. */
module Wrappers {

  /** An optional value; `None` stands for Rust's `None` and Go's nil pointer. */
  datatype Option<+T> = None | Some(value: T)

  /** The outcome of a decoder: a value, or an error with a descriptive message.
      `:-` propagates the first error, as Rust's `?` does. */
  datatype Result<+T> = Ok(value: T) | Err(message: string) {

    predicate IsFailure() {
      Err?
    }

    function PropagateFailure<U>(): Result<U>
      requires Err?
    {
      Err(message)
    }

    function Extract(): T
      requires Ok?
    {
      value
    }
  }
}
