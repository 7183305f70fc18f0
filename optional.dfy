/** A value that may be missing: the model's stand-in for TypeScript's `null` and `undefined`. */
module Optional {

  datatype Option<+T> = None | Some(value: T) {

    /** The value if present, else `default`: TypeScript's `x ?? default`. */
    function GetOr(default: T): T {
      match this
      case Some(v) => v
      case None => default
    }
  }
}
