/** Failure-carrying values shared by the whole model. */
module Wrappers {

  datatype Option<T> = None | Some(value: T)
  {
    /** The wrapped value, or `default` when there is none. */
    function GetOr(default: T): T
    {
      if Some? then value else default
    }
  }

  /** The outcome of a call into the relay's HTTP client: a value, or the
      message of the error it threw. */
  datatype Result<T> = Success(value: T) | Failure(message: string)
}
