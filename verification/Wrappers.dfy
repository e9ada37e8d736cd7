/** Optional values: `None` stands for JavaScript's `undefined`/`null`, or for a
    quotient the source would compute as `Infinity` or `NaN`. */
module Wrappers {

  datatype Option<+T> = None | Some(value: T) {

    /** The `??` operator: the value, or `default` when there is none. */
    function GetOr(default: T): T {
      match this
      case Some(v) => v
      case None => default
    }
  }
}
