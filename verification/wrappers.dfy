/** The Some/None datatype that stands for a nullable value (`None` in
    Python, `null` or `undefined` in TypeScript). */
module Wrappers {

  datatype Option<+T> = None | Some(value: T) {

    /** Returns the value held in Some, or the given default for None. */
    function GetOr(default: T): T {
      match this
      case Some(v) => v
      case None => default
    }
  }
}
