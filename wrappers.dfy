/** Optional values, standing for `undefined`/`null` (TypeScript), `Option` (Rust)
    and the zero value of an absent JSON field (Go). */
module Wrappers {

  datatype Option<+T> = None | Some(value: T) {

    /** The value, or `default` when absent (the `??` operator). */
    function GetOr(default: T): T {
      match this
      case Some(v) => v
      case None => default
    }
  }
}
