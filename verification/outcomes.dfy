/** Error and result shapes shared by every component of the controller. */
module Outcomes {

  /** The errors the controller tells apart. `MonitorNotFound` is the provider's
      not-found sentinel (`models.ErrMonitorNotFound`); every other error is only
      known by its message. */
  datatype Error = MonitorNotFound | Failure(message: string)

  /** A value that may be absent. A Go `error` return is an `Option<Error>`:
      `None` is `nil`. */
  datatype Option<+T> = None | Some(value: T)

  /** A value or the error that prevented computing it. */
  datatype Result<+T> = Ok(value: T) | Err(error: Error)
}
