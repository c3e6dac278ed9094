/** An optional value, for an argument the caller may leave out. */
module Optional {

  datatype Option<T> = None | Some(value: T) {

    /** The value when present, the default otherwise (JavaScript's `x || d` on an object). */
    function GetOr(default: T): (r: T)
      ensures Some? ==> r == value
      ensures None? ==> r == default
    {
      match this
      case Some(v) => v
      case None => default
    }
  }
}
