/** The optional value used throughout the model: `None` stands for a value the
    source does not have (a missing field, or a JavaScript number that is NaN
    or infinite). */
module Wrappers {
  datatype Option<+T> = None | Some(value: T) {
    function GetOr(default: T): T {
      match this
      case Some(v) => v
      case None => default
    }
  }
}
