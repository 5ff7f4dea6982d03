/** The optional value used wherever the bridge reads something that may be absent:
    a configuration key, the base station's mode, an empty timer slot. */
module Wrappers {

  datatype Option<+T> = None | Some(value: T) {

    /** The wrapped value, or `default` when there is none. */
    function GetOr(default: T): T {
      match this
      case Some(v) => v
      case None => default
    }
  }
}
