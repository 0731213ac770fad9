/** The optional configuration values of the blueprints: a key that is absent
    from the parsed document is None, and the reader picks its own default. */
module Wrappers {

  datatype Option<+T> = None | Some(value: T) {

    /** The value if present, else the caller's default (Python's `dict.get(key, default)`). */
    function GetOr(default: T): T {
      match this
      case Some(v) => v
      case None => default
    }
  }
}
