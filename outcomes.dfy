/** The Python exceptions the core raises, and the Option/Result wrappers that carry them. */
module Outcomes {

  /** The exception classes raised by the modelled code. */
  datatype Error =
    | ValueError
    | TypeError
    | IndexError
    | NotImplementedError
    | ZeroDivisionError

  /** Python's `None` or a value. */
  datatype Option<T> = None | Some(value: T)

  /** A value, or the exception raised instead of returning it. */
  datatype Result<T> = Ok(value: T) | Err(error: Error) {
    predicate IsFailure() { Err? }

    function PropagateFailure<U>(): Result<U>
      requires Err?
    {
      Err(error)
    }

    function Extract(): T
      requires Ok?
    {
      value
    }
  }
}
