/** The optional-value datatype shared by the modules of this project: `None` stands
    for JavaScript's `null`/`undefined` (or a missing result), `Some(v)` for a present value. */
module Options {

  datatype Option<+T> = None | Some(value: T) {

    /** Returns the encapsulated value, or `default` when there is none. */
    function GetOr(default: T): T {
      match this
      case Some(v) => v
      case None => default
    }
  }
}
