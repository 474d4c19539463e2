/** Option and Result values, and the run-time errors the Python code can raise,
    modelled as values so that every error path is explicit. */
module Wrappers {

  datatype Option<T> = None | Some(value: T) {

    /** The value, or `default` when there is none (Python's `x if x is not None else d`). */
    function GetOr(default: T): T {
      match this
      case Some(v) => v
      case None => default
    }
  }

  /** The Python exceptions the modelled code lets escape, and the early replies a command
      gives instead of going on. */
  datatype Failure =
    | IndexOutOfRange   // IndexError: list index out of range
    | KeyNotFound       // KeyError: dictionary lookup of a missing key
    | ZeroDivision      // ZeroDivisionError
    | NoneAttribute     // AttributeError: `.value` read on None
    | EmptyRange        // ValueError: random.randint(1, n) with n < 1
    | Refused(message: string) // not an exception: the command replies with `message` and stops

  datatype Result<T> = Ok(value: T) | Err(failure: Failure)
}
