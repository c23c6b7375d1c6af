/** Optional values, used throughout the model: `None` stands for
    JavaScript's `null`, `undefined` or `NaN` wherever the bot checks for them. */
module Wrappers {

  datatype Option<+T> = None | Some(value: T) {

    /** Returns the value in `Some`, or `default` for `None`. */
    function GetOr(default: T): T
    {
      match this
      case Some(v) => v
      case None => default
    }
  }
}
