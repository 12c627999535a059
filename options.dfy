/** The optional value used across the model: `None` stands for JavaScript's
    `null`/`undefined` or an absent property, `Some(v)` for a present one. */
module Options {

  datatype Option<+T> = None | Some(value: T) {

    /** The value, or `default` when absent. */
    function GetOr(default: T): T {
      match this
      case Some(v) => v
      case None => default
    }
  }
}
