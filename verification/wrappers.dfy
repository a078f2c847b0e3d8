/** Small success/failure datatypes shared by the chess rules and the square graph.
    They stand in for Python's `None` and for raised exceptions. */
module Wrappers {

  /** A value that may be absent; `None` plays the part of Python's `None`. */
  datatype Option<+T> = None | Some(value: T)

  /** A computed value, or the exception that the source raises instead. */
  datatype Result<+T, +E> = Ok(value: T) | Err(error: E) {

    /** An `Err` stops a `:-` chain, as a raised exception stops a Python function. */
    predicate IsFailure() {
      Err?
    }

    function PropagateFailure<U>(): Result<U, E>
      requires Err?
    {
      Err(error)
    }

    function Extract(): T
      requires Ok?
    {
      value
    }
  }

  /** The outcome of a check that either returns normally or raises. */
  datatype Outcome<+E> = Pass | Fail(error: E)
}
