/** A React prop that the parent may leave out. An absent prop takes the
    value that the component's `defaultProps` gives it. */
module Options {

  datatype Option<+T> = None | Some(value: T) {

    /** The prop's value, or `default` when the parent did not pass it. */
    function GetOr(default: T): T {
      match this
      case Some(v) => v
      case None => default
    }
  }
}
