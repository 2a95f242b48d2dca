/** Option and Result values, and the errors the client can raise. */
module Wrappers {

  datatype Option<+T> = None | Some(value: T)

  /** The outcome of a call that may raise: a value, or the error it raised. */
  datatype Result<+T> = Ok(value: T) | Err(error: Error) {
    predicate IsFailure() { Err? }

    function PropagateFailure<U>(): Result<U>
      requires Err?
    {
      Err(error)
    }

    function Extract(): T
      requires Ok?
    {
      value
    }
  }

  /**
   * The exceptions the modelled code raises. `ValueError`s that the source
   * raises itself carry its message; `BadLiteral` and `OutOfRange` are the
   * `ValueError`s raised by `int(...)` and by `datetime.time(...)`;
   * `OverflowError` is what `datetime.time(...)` raises for a component
   * that does not fit a C `int`.
   */
  datatype Error =
    | ValueError(message: string)
    | BadLiteral(text: string)
    | OutOfRange
    | OverflowError
    | KeyError(key: string)
    | TypeError
    | AttributeError
    | IndexError
    | HttpError(status: int, reason: string, message: string)

  predicate IsValueError(e: Error) {
    e.ValueError? || e.BadLiteral? || e.OutOfRange?
  }
}
