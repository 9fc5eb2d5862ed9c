/** The optional values of the source (`discountPrice?`, `reviews?`, `isFeatured?`, `email?`,
    a `find` that may come back `undefined`). */
module Options {

  datatype Option<T> = None | Some(value: T) {

    /** The value, or `default` when absent (the source's `x || default` on lists). */
    function GetOr(default: T): T {
      match this
      case Some(v) => v
      case None => default
    }
  }
}
