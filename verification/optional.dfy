/** The optional values of the model: a JSON field that may be absent, a
    message whose `module` is undefined, a request that was never started. */
module Optional {

  datatype Option<+T> = None | Some(value: T) {

    /** The value, or `default` when there is none (Python's `dict.get(k, d)`). */
    function GetOr(default: T): T {
      match this
      case Some(v) => v
      case None => default
    }
  }
}
