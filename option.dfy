/** Optional values (JavaScript's `undefined`, `null` or absent field) and
    results of operations that can fail (a thrown `Error`). */
module Optional {

  datatype Option<+T> = None | Some(value: T) {

    /** The value if present, else `default`. */
    function GetOr(default: T): T {
      match this
      case Some(v) => v
      case None => default
    }
  }

  /** A value, or the message of the error that was thrown instead. */
  datatype Result<+T> = Ok(value: T) | Err(message: string)
}
