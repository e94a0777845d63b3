/** The exceptions the library raises, and those that escape it unwrapped. */
module Errors {
  import opened Bytes
  import opened Values

  datatype Error =
    /** `ThreeScaleException` from `validate`, with its message */
    | InvalidCredentials(message: Str)
    /** `ThreeScaleException("Invalid transaction type")` */
    | InvalidTransactionType
    /** `ThreeScaleException("Invalid timestamp '...' specified in transaction")` */
    | InvalidTimestamp(ts: Value)
    /** `ThreeScaleException("Invalid xml ...")` */
    | InvalidXml
    /** `ThreeScaleServerError("Invalid response for url <url>: ...")` for an HTTP error status */
    | ServerError(url: Str, code: int)
    /** `ThreeScaleConnectionError("Connection error <url>: ...")` */
    | ConnectionError(url: Str)
    /** `ThreeScaleException("Unknown error <url>: ...")` */
    | UnknownError(url: Str)
    /** A `KeyError` from a missing XML attribute; the library does not wrap it. */
    | KeyError(key: Str)
    /** An `AttributeError` from calling `.keys()` on a value that is not a dict; not wrapped either. */
    | AttributeError(value: Value)

  datatype ExceptionClass =
    | ThreeScaleException
    | ThreeScaleServerError
    | ThreeScaleConnectionError
    | PythonBuiltin

  function ClassOf(e: Error): ExceptionClass {
    match e
    case ServerError(_, _) => ThreeScaleServerError
    case ConnectionError(_) => ThreeScaleConnectionError
    case KeyError(_) => PythonBuiltin
    case AttributeError(_) => PythonBuiltin
    case _ => ThreeScaleException
  }

  /** Caught by `except ThreeScaleException`: the two other library classes derive from it. */
  predicate IsThreeScaleException(e: Error) {
    ClassOf(e) != PythonBuiltin
  }
}
