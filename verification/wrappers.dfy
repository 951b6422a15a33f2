/** Optional values and the outcome of a JavaScript step that may throw. */
module Wrappers {

  /** A value that may be absent: `undefined`/`null` in the source become None. */
  datatype Option<+T> = None | Some(value: T) {

    /** The wrapped value, or `default` when absent. */
    function GetOr(default: T): T {
      match this
      case Some(v) => v
      case None => default
    }
  }

  /** The result of an awaited step that either completes or throws an error
      carrying `message`. */
  datatype Attempt<+T> = Done(value: T) | Threw(message: string)
}
