/** Wrappers shared by every module of the model: an absent-or-present value
    (TypeScript's `T | undefined` and `T | null`) and the outcome of a call
    that may throw. */
module Base {

  /** A value that may be absent. */
  datatype Option<+T> = None | Some(value: T) {

    /** `x ?? fallback`: the value when present, the fallback otherwise. */
    function GetOr(fallback: T): T {
      match this
      case Some(v) => v
      case None => fallback
    }
  }

  /** The outcome of an asynchronous call that either resolves with a value
      or rejects with an error message. */
  datatype Result<+T> = Ok(value: T) | Err(message: string)
}
