/** The exceptions of the workout code that this model keeps, and a failure-compatible
    result type that carries either a computed value or one of them. */
module Results {

  /** The exceptions this model keeps, one constructor per kind. */
  datatype Error =
    /** `read_package` was given a code that is not in the workout table (a ValueError). */
    | UnknownWorkoutType(code: string)
    /** The positional argument list does not fit the constructor (a TypeError). */
    | WrongArgumentCount(expected: nat, given: nat)
    /** Calories were asked of the base training, which has no formula. */
    | NotImplemented
    /** A float division by zero (a ZeroDivisionError). */
    | DivisionByZero

  /** Either a value or the error that stopped its computation; usable with `:-`. */
  datatype Result<+T> = Ok(value: T) | Err(error: Error) {

    predicate IsFailure() {
      Err?
    }

    function PropagateFailure<U>(): (r: Result<U>)
      requires Err?
    {
      Err(error)
    }

    function Extract(): (v: T)
      requires Ok?
    {
      value
    }
  }
}
