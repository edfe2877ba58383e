/** An optional value: the model's rendering of a JavaScript `undefined` / `null` alternative. */
module Optional {
  datatype Option<+T> = None | Some(value: T) {
    function GetOr(default: T): T {
      match this
      case Some(v) => v
      case None => default
    }
  }
}
