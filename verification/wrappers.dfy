/** Optional values: the model's stand-in for TypeScript's `T | null`,
    `T | undefined` and optional (`?`) fields. */
module Wrappers {

  datatype Option<+T> = None | Some(value: T) {

    /** The value, or `default` when absent (the `x || default` idiom). */
    function GetOr(default: T): T {
      match this
      case Some(v) => v
      case None => default
    }
  }
}
