/** Small types shared by every component. */
module Prelude {
  datatype Option<+T> = None | Some(value: T) {
    function GetOr(default: T): (t: T)
    {
      match this
      case Some(v) => v
      case None => default
    }
  }
}
