/** The two failure-compatible shapes the model uses for absent values and for thrown errors. */
module Wrappers {

  datatype Option<+T> = None | Some(value: T) {
    function GetOr(default: T): T {
      match this
      case Some(v) => v
      case None => default
    }
  }

  /** A call that either answers or throws. `:-` propagates the thrown error to the caller. */
  datatype Result<+T, +E> = Ok(value: T) | Err(error: E) {
    predicate IsFailure() {
      Err?
    }

    function PropagateFailure<U>(): Result<U, E>
      requires Err?
    {
      Err(error)
    }

    function Extract(): T
      requires Ok?
    {
      value
    }
  }

  /** An answer about which nothing is known but its type. */
  method Anything<T(0)>() returns (answer: T) {
    answer :| true;
  }
}
