/** The absent-or-present value used wherever the source has `null`, `undefined`
    or a missing attribute. */
module Optional {

  datatype Option<+T> = None | Some(value: T) {

    /** The value, or `default` when absent: the `??` operator of the source. */
    function GetOr(default: T): T {
      match this
      case Some(v) => v
      case None => default
    }
  }
}
