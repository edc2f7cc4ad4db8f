/** Option and Result values, plus the exceptions the C# code can throw, so that
    error paths are values instead of preconditions. */
module Wrappers {

  datatype Option<+T> = None | Some(value: T) {
    predicate IsFailure() { None? }

    function PropagateFailure<U>(): Option<U>
      requires None?
    {
      None
    }

    function Extract(): T
      requires Some?
    {
      value
    }
  }

  /** The .NET exception kinds the modelled code can raise. */
  datatype Exception =
    | ArgumentOutOfRange
    | ArgumentException(message: string)
    | InvalidOperation(message: string)
    | ObjectDisposed
    | Overflow
    | IndexOutOfRange
    | NotSupported
    | NullReference
    | KeyNotFound
    | Decode

  datatype Result<+T> = Ok(value: T) | Err(error: Exception) {
    predicate IsFailure() { Err? }

    function PropagateFailure<U>(): Result<U>
      requires Err?
    {
      Err(error)
    }

    function Extract(): T
      requires Ok?
    {
      value
    }
  }

  /** A method that either completes or throws. */
  datatype Outcome = Done | Threw(error: Exception)
}
