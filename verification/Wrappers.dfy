/** Failure-carrying results shared by the modules of this project. */
module Wrappers {
  datatype Option<+T> = None | Some(value: T) {
    function GetOr(default: T): T {
      if Some? then value else default
    }
  }

  datatype Result<+R, +E> = Ok(value: R) | Err(error: E)
}

/** Go's arithmetic where it differs from Dafny's. */
module GoArithmetic {
  /** Integer division, which truncates toward zero. */
  function TruncDiv(a: int, b: int): int
    requires b > 0
  {
    if a >= 0 then a / b else -(-a / b)
  }

  /** Conversion of a float to an int, which truncates toward zero. */
  function Truncate(x: real): int {
    if x >= 0.0 then x.Floor else -((-x).Floor)
  }
}
