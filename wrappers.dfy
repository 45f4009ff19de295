/** Optional values and the outcome of handlers that may throw. */
module Wrappers {

  /** `T | undefined`: a value that may be absent. */
  datatype Option<+T> = None | Some(value: T) {

    /** `x ?? default` */
    function GetOr(default: T): T {
      match this
      case Some(v) => v
      case None => default
    }
  }

  /** A handler either completes or throws a JavaScript `Error` with a message. */
  datatype Outcome = Done | Threw(message: string)

  /** A computation that either yields a value or throws. */
  datatype Result<+T> = Ok(value: T) | Raised(message: string) {

    function ToOutcome(): Outcome {
      match this
      case Ok(_) => Done
      case Raised(m) => Threw(m)
    }
  }
}
