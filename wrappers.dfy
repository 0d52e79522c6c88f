/** Optional values: the scalar store, the actor registry and the high-score
    file all answer "maybe nothing", and the game gives that absence meaning. */
module Wrappers {

  datatype Option<+T> = None | Some(value: T) {

    /** The stored value, or `default` when there is none (Rust's `unwrap_or`). */
    function GetOr(default: T): T {
      match this
      case Some(v) => v
      case None => default
    }
  }
}
