/** Option and Result, and the Python exceptions the modelled code can raise. */
module Wrappers {

  datatype Option<+T> = None | Some(value: T) {
    function GetOr(default: T): T {
      match this
      case Some(v) => v
      case None => default
    }
  }

  datatype Result<+T, +E> = Ok(value: T) | Err(error: E)

  /** The Python exceptions that reach the caller of a modelled operation. */
  datatype PyError =
    | KeyError(key: string)     // a dict lookup of a missing key
    | TypeError                 // an operand of the wrong type
    | ValueError                // int() of a malformed string, a negative deque maxlen
    | IndexError                // a list index out of range
    | ZeroDivisionError         // sum(window) / len(window) on an empty window
}
