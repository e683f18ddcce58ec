/** Option and a panic-aware Result, shared by every module of the model. */
module Wrappers {

  datatype Option<+T> = None | Some(value: T)

  /** The outcome of an operation that may abort the program (a Rust `panic!`,
      an `unwrap` on `None`, an index out of range, a `usize` underflow). */
  datatype Result<+T> = Ok(value: T) | Panic {

    predicate IsFailure() {
      Panic?
    }

    function PropagateFailure<U>(): Result<U>
      requires Panic?
    {
      Panic
    }

    function Extract(): T
      requires Ok?
    {
      value
    }
  }
}
