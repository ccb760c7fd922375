/** Failure-compatible wrappers shared by every module of the model. */
module Wrappers {

  datatype Option<+T> = None | Some(value: T) {
    function GetOr(default: T): T {
      match this
      case Some(v) => v
      case None => default
    }
  }

  /** The error families the source raises (Python exception classes). */
  datatype Error =
    | ValueError(message: string)
    | RuntimeError(message: string)
    | AttributeError(message: string)
    | TypeError(message: string)
      /** An input whose Python outcome depends on something the model does not keep. */
    | NotModelled(message: string)

  datatype Result<+T> = Ok(value: T) | Err(error: Error) {
    predicate IsFailure() { Err? }

    function PropagateFailure<U>(): Result<U>
      requires Err?
    {
      Err(error)
    }

    function Extract(): T
      requires Ok?
    {
      value
    }
  }
}
