/** Option and Result, the stand-ins for Go's nil pointers and (value, error) pairs. */
module Wrappers {

  datatype Option<+T> = None | Some(value: T) {
    function GetOr(default: T): T {
      match this
      case Some(v) => v
      case None => default
    }
  }

  datatype Result<+R, +E> = Success(value: R) | Failure(error: E)
}

/** Instants are counted from Go's zero time (January 1, year 1, UTC), so the zero time is 0. */
module GoTime {
  type Time = int

  const ZeroTime: Time := 0
}
