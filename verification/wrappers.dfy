/** Failure-compatible wrappers shared by the modules of this model: `Option`
    stands for JavaScript's `null`/`undefined` versus a present value, and
    `Result` for a value versus a thrown `Error` carrying a message. */
module Wrappers {

  datatype Option<+T> = None | Some(value: T) {

    /** The value if present, otherwise the given default. */
    function GetOr(default: T): T {
      match this
      case Some(v) => v
      case None => default
    }
  }

  datatype Result<+T> = Success(value: T) | Failure(error: string)
}
