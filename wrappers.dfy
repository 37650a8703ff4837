/** Option and Result shapes shared by every model, and the exception kinds the driver raises. */
module Wrappers {
  datatype Option<T> = None | Some(value: T) {
    function GetOr(default: T): T {
      match this
      case None => default
      case Some(v) => v
    }
  }

  /** The .NET exception types thrown by the modelled code, plus running out of message bytes; `GeneralException` is a plain `System.Exception`, `NullReference` a dereference of null. */
  datatype Error =
    | InvalidOperation
    | ArgumentOutOfRange
    | ArgumentNull
    | Argument
    | NotSupported
    | ObjectDisposed
    | IOError
    | InvalidCast
    | NotImplemented
    | IndexOutOfRange
    | NpgsqlError
    | EndOfData
    | GeneralException
    | NullReference

  datatype Result<T> = Ok(value: T) | Err(error: Error) {
    predicate IsFailure() { Err? }
    function PropagateFailure<U>(): Result<U> requires Err? { Err(error) }
    function Extract(): T requires Ok? { value }
  }

  datatype Unit = Unit
}
