/** Absent-or-present values and success-or-failure outcomes, used wherever the
    portal's code returns `undefined`/`null` or throws. */
module Wrappers {

  /** `None` stands for JavaScript's `undefined` or `null`. */
  datatype Option<T> = None | Some(value: T) {

    /** The value, or `default` when absent (the `x ?? default` idiom). */
    function GetOr(default: T): T {
      match this
      case Some(v) => v
      case None => default
    }
  }

  /** The outcome of a call into the backend: a value, or the message of the error it threw. */
  datatype Result<T> = Ok(value: T) | Err(message: string)
}
