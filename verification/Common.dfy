/** Small types shared by every module of the model. */
module Common {
  datatype Option<+T> = None | Some(value: T) {
    function GetOr(default: T): T {
      if Some? then value else default
    }
  }

  datatype Result<+T, +E> = Ok(value: T) | Err(error: E)

  /** Milliseconds since the epoch, as `Date.now()` returns them. */
  type Time = nat

  type CameraId = string
  type OrgId = string

  /** A camera's status column. */
  datatype Status = Offline | Connecting | Online | Reconnecting | Degraded
}
