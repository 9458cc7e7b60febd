/** Option type used for the places where the bot reads a value that may be absent
    (an unset session field, an environment variable, a number that does not parse). */
module Wrappers {

  datatype Option<+T> = None | Some(value: T) {

    /** The encapsulated value, or `default` when there is none. */
    function GetOr(default: T): T {
      match this
      case Some(v) => v
      case None => default
    }
  }
}
