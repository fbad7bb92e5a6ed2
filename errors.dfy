/** Failures of the driver, and the failure-compatible wrappers its operations return.

    The driver raises Python exceptions; each kind it can raise is one constructor of
    `Error`. Every validation failure is a `ValueError` whose message is the one the
    driver passes to it. */
module Errors {

  datatype Error =
    | ValueError(message: string)  // a failed range/membership check, or int() of a non-number
    | IndexError                   // reply[-1] on an empty reply
    | KeyError                     // MOTOR_TYPE lookup of an unknown code
    | TransportError               // the channel could not deliver a reply

  datatype Option<+T> = None | Some(value: T)

  datatype Result<+T> = Ok(value: T) | Err(error: Error) {

    predicate IsFailure() {
      Err?
    }

    function PropagateFailure<U>(): Result<U>
      requires Err?
    {
      Err(error)
    }

    function Extract(): T
      requires Ok?
    {
      value
    }
  }

  // The messages the driver raises its ValueErrors with.
  const InvalidCommandMsg := "Invalid command"
  const InvalidAddressMsg := "Invalid address value"
  const InvalidAxisMsg := "Invalid axis value"
  const VelocityMsg := "Velocity must be between 1 and 2000"
  const AccelerationMsg := "Invalid acceleration value"
  const DirectionMsg := "Direction must be + or -"
  const MotorTypeMsg := "Invalid motor type"
  const NewAddressMsg := "New address must be between 1 and 31"
  const ConflictResolutionMsg := "Conflict resolution scheme must be 0, 1, or 2."
  // Python's int() of a string that is not a decimal literal.
  const InvalidLiteralMsg := "invalid literal for int() with base 10"
}
