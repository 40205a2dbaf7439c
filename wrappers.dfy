/** Swift optionals. */
module Wrappers {
  datatype Option<T> = None | Some(value: T)
  {
    /** Swift's `x ?? d`. */
    function GetOr(d: T): T
    {
      match this
      case Some(v) => v
      case None => d
    }
  }
}
