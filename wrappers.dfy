/** Optional values and Python's exception outcomes, shared by every module. */
module Wrappers {

  /** A value that may be absent: Python's `None`, or a dictionary key that is not there. */
  datatype Option<+T> = None | Some(value: T) {
    function GetOr(default: T): T
    {
      match this
      case Some(v) => v
      case None => default
    }
  }

  /** The exceptions the analytics can raise on malformed input. */
  datatype PyError =
    | TypeError          // arithmetic or comparison with `None`
    | ValueError         // unpacking a row that is not exactly `[price, size]`
    | ZeroDivisionError  // float division by zero

  /** The outcome of a call: its return value, or the exception it raises. */
  datatype Result<+T> = Ok(value: T) | Err(error: PyError)
}
