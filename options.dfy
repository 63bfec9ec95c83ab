/** An optional value: JavaScript's `null` and Python's `None`, and a nullable SQL column. */
module Options {

  datatype Option<+T> = None | Some(value: T) {

    /** The value if there is one, otherwise `default`. */
    function GetOr(default: T): T
    {
      match this
      case Some(v) => v
      case None => default
    }
  }
}
