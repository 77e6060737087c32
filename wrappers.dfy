/** The optional value used wherever the source has a value that may be missing
    (a tag that is absent, an attribute without content, a task without output). */
module Wrappers {

  datatype Option<+T> = None | Some(value: T) {

    /** The carried value, or `default` when there is none. */
    function GetOr(default: T): T {
      match this
      case Some(v) => v
      case None => default
    }
  }
}
