/** An optional value: a prop left `undefined` versus a prop that is passed. */
module Optional {
  datatype Option<+T> = None | Some(value: T) {
    /** The value if present, otherwise `default`: a destructuring default, which
        replaces only `undefined`. */
    function GetOr(default: T): (r: T)
      ensures Some? ==> r == value
      ensures None? ==> r == default
    {
      match this
      case Some(v) => v
      case None => default
    }
  }
}
