/** The optional value used wherever the components keep `null` or `undefined`. */
module Wrappers {

  datatype Option<+T> = None | Some(value: T)
  {
    /** `x ?? d`. */
    function GetOr(default: T): T
    {
      match this
      case Some(v) => v
      case None => default
    }
  }
}
