/** Optional values and calls that may throw. */
module Wrappers {

  /** The model of a TypeScript `T | undefined` or `T | null`. */
  datatype Option<+T> = None | Some(value: T) {

    /** The value, or a default when absent (the `x ?? d` of the source). */
    function GetOr(default: T): T {
      match this
      case Some(v) => v
      case None => default
    }
  }

  /** The outcome of an awaited call: its value, or the message of the error it threw. */
  datatype Attempt<+T> = Returned(value: T) | Threw(message: string)
}
