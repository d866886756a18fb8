/** Option and Result, the failure-compatible wrappers used throughout the model. */
module Wrappers {

  /** A nullable reference or nullable value type: `None` is the C# `null`. */
  datatype Option<+T> = None | Some(value: T) {
    predicate IsFailure() { None? }

    function PropagateFailure<U>(): Option<U>
      requires None?
    {
      None
    }

    function Extract(): T
      requires Some?
    {
      value
    }
  }

  /** The value an operation returns, or the exception it throws. */
  datatype Result<+T, +E> = Ok(value: T) | Err(error: E) {
    predicate IsFailure() { Err? }

    function PropagateFailure<U>(): Result<U, E>
      requires Err?
    {
      Err(error)
    }

    function Extract(): T
      requires Ok?
    {
      value
    }
  }
}

/** System.ArgumentException as the model sees it: the parameter it names and its message. */
module Errors {
  datatype ArgumentError = ArgumentError(paramName: string, message: string)
}
