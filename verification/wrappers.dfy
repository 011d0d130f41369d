/** Failure-carrying results for the EVALUATE stage.

    Python raises exceptions; the model returns `Err` with the exception's
    class and message instead, so every error path is an ordinary value.
 */
module Wrappers {

  datatype Option<+T> = None | Some(value: T) {

    function GetOr(default: T): T
    {
      match this
      case Some(v) => v
      case None => default
    }
  }

  /** The Python exception classes the core raises or catches. */
  datatype Error =
    | FileNotFound(message: string)
    | ValueError(message: string)
    | KeyError(message: string)
    | TypeError(message: string)
    | AttributeError(message: string)
    | JsonDecodeError
    | UnboundLocalError(message: string)
    | ImportError(message: string)
      /** A value of a JSON type the model does not represent where the
          source goes on with it (a number where a name is expected). */
    | Unsupported(message: string)

  datatype Result<+T> = Ok(value: T) | Err(error: Error) {

    predicate IsFailure()
    {
      Err?
    }

    function PropagateFailure<U>(): Result<U>
      requires Err?
    {
      Err(error)
    }

    function Extract(): T
      requires Ok?
    {
      value
    }
  }
}
