/** The conventional Some/None datatype, standing in for a C# null reference. */
module Options {

  datatype Option<+T> = None | Some(value: T) {

    /** The value held in Some, or the given default when None. */
    function GetOr(default: T): T {
      match this
      case Some(v) => v
      case None => default
    }
  }
}
