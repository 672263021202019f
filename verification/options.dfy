/** The optional value that stands for a Go pointer which may be nil, and for a lookup that may fail. */
module Options {

  datatype Option<+T> = None | Some(value: T) {

    /** Go's ptr.Deref: the value pointed to, or a default for nil. */
    function GetOr(default: T): T {
      match this
      case Some(v) => v
      case None => default
    }
  }
}
