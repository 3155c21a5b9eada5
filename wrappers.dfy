/** Failure-carrying values shared by every module of the model.
    Python raises exceptions; the model returns `Err` with the exception class instead. */
module Wrappers {

  datatype Option<+T> = None | Some(value: T)

  /** The Python exception classes the modelled code can raise. */
  datatype PyError =
    | KeyError
    | IndexError
    | TypeError
    | ValueError
    | ZeroDivisionError
    | AssertionError
    | RuntimeError
    | NameError

  datatype Result<+T> = Ok(value: T) | Err(error: PyError) {
    predicate IsFailure() { Err? }

    function PropagateFailure<U>(): Result<U>
      requires Err?
    {
      Err(error)
    }

    function Extract(): T
      requires Ok?
    {
      value
    }
  }
}
