/** Optional values: Swift's `T?` as a datatype. */
module Optional {

  datatype Option<+T> = None | Some(value: T) {

    /** Swift's `x ?? d`. */
    function GetOr(default: T): T {
      match this
      case Some(v) => v
      case None => default
    }
  }
}
