/** The optional-value datatype the parsers return: `None` stands for the
    error a Go parser returns alongside its zero value. */
module Wrappers {

  datatype Option<+T> = None | Some(value: T) {

    /** The carried value, or `default` when there is none. */
    function GetOr(default: T): T {
      match this
      case Some(v) => v
      case None => default
    }
  }
}
