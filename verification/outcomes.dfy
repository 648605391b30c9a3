/** Failure-carrying results shared by the rules engine.

    The Python code signals failure by raising; each raise becomes an `Err`
    carrying one of the `Error` values below, so a caller sees the error path
    as an ordinary value.
 */
module Outcomes {

  /** The exceptions the core raises. */
  datatype Error =
    | InvalidOperation   // a Bomb or a Flag asked to attack
    | InvalidDimensions  // a write outside the 10x10 grid
    | TypeMismatch       // an ordering comparison against a non-piece
    | AttributeMissing   // an attribute read on a value that lacks it

  datatype Result<+T> = Ok(value: T) | Err(error: Error)

  /** Python's `None`-or-value, used for the three-way combat outcome. */
  datatype Option<+T> = None | Some(value: T)
}
