/** Optional values and handler outcomes, shared by every module of the model. */
module Wrappers {

  /** An optional value; `None` stands for a JavaScript `undefined`, a
      missing property or a `NaN` coming out of a numeric parse. */
  datatype Option<+T> = None | Some(value: T) {

    /** The value, or `default` when absent (the source's `x || default`
        for values whose only falsy case is absence). */
    function GetOr(default: T): T {
      match this
      case Some(v) => v
      case None => default
    }
  }

  /** The outcome of a handler: a new value, or the error it reported. */
  datatype Result<+T, +E> = Success(value: T) | Failure(error: E)
}
