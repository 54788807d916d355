/** The optional value used wherever the source reads something that may be absent
    (`null`, `undefined`, a missing storage key, a selector without a match). */
module Options {

  datatype Option<+T> = None | Some(value: T) {

    /** The value, or `default` when it is absent (JavaScript's `x ?? default`). */
    function GetOr(default: T): T
    {
      match this
      case Some(v) => v
      case None => default
    }
  }
}
