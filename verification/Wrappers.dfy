/** Failure-carrying results shared by every component. */
module Wrappers {

  datatype Option<+T> = None | Some(value: T) {
    function GetOr(default: T): T {
      match this
      case Some(v) => v
      case None => default
    }
  }

  /** The source reports failures as text; only success or failure matters here. */
  datatype Result<+T> = Ok(value: T) | Err
}
