/** Optional values and results with an error, used for the bot's missing
    fields and for the failures a tick can run into. */
module Wrappers {

  datatype Option<+T> = None | Some(value: T) {

    /** The stored value, or `default` when there is none. */
    function GetOr(default: T): T {
      match this
      case Some(v) => v
      case None => default
    }
  }

  datatype Result<+T, +E> = Ok(value: T) | Err(error: E)
}
