/** Option and Result values, and the Python exception classes the modelled code raises. */
module Wrappers {

  datatype Option<+T> = None | Some(value: T)

  datatype Result<+T, +E> = Success(value: T) | Failure(error: E)

  /** The exception class a Python call ends with, when it does not return normally. */
  datatype PyError =
    | ValueError
    | TypeError
    | AttributeError
    | KeyError
    | IndexError
    | ZeroDivisionError
}
