/** The optional values of the middleware's API, read the JavaScript way. */
module Wrappers {

  /** `None` stands for a result JavaScript treats as falsy (`undefined`, `null`, ...)
      in an `a || b` fallback; `Some(v)` for a truthy value `v`. */
  datatype Option<+T> = None | Some(value: T) {

    /** `this || default` */
    function GetOr(default: T): T {
      match this
      case Some(v) => v
      case None => default
    }
  }
}
