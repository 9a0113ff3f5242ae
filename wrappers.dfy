/** Optional values and error returns shared by the simulator modules. */
module Wrappers {

  /** A value that may be absent, like a Python argument defaulting to None. */
  datatype Option<+T> = None | Some(value: T) {
    function GetOr(default: T): T {
      match this
      case Some(v) => v
      case None => default
    }
  }

  /** The exceptions the modelled Python code raises. */
  datatype Fault =
    | SectorCountInvalid   // ValueError("Antenna_Sectors must be either '3' or '6'")
    | ZeroDivision         // Python float division by the integer 0
    | IndexOutOfRange      // IndexError: an index past the end of an array
    | ShapeMismatch        // numpy could not reshape or broadcast the operands

  datatype Result<+T> = Success(value: T) | Failure(fault: Fault)
}
