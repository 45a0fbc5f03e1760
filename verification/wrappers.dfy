/** Failure-compatible Option and Result types, usable with `:-`. */
module Wrappers {

  /** An optional value: the model's stand-in for a C# null. */
  datatype Option<+T> = None | Some(value: T)

  /** Either a value or the error that stopped the computation; in the
      modelled program a `Failure` is an exception that escapes the handler. */
  datatype Result<+T, +E> = Success(value: T) | Failure(error: E) {

    predicate IsFailure() {
      Failure?
    }

    function PropagateFailure<U>(): Result<U, E>
      requires Failure?
    {
      Failure(error)
    }

    function Extract(): T
      requires Success?
    {
      value
    }
  }
}
