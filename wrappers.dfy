/** Optional values and the outcome of a repository call. */
module Wrappers {

  datatype Option<T> = None | Some(value: T) {
    /** The value, or `default` when there is none (a JS `??`-style fallback). */
    function GetOr(default: T): T {
      if Some? then value else default
    }
  }

  /** A repository call either returns a value or fails with the message of the
      `Error` it throws; every service has exactly this one failure kind. */
  datatype Result<T> = Ok(value: T) | NotFound(message: string)
}
