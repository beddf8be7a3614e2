/** An optional value: the model's stand-in for a .NET reference or nullable value that may be null. */
module Optional {

  datatype Option<T> = None | Some(value: T) {

    /** The value, or `default` when there is none: the C# `x ?? default`. */
    function GetOr(default: T): (r: T)
      ensures Some? ==> r == value
      ensures None? ==> r == default
    {
      match this
      case Some(v) => v
      case None => default
    }
  }
}
