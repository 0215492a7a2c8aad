/** The `undefined`/`null` of a fetched field, and the `??` / `||` defaults applied to it. */
module Optional {

  datatype Option<+T> = None | Some(value: T) {

    /** `x ?? default` */
    function GetOr(default: T): T {
      match this
      case Some(v) => v
      case None => default
    }
  }
}
