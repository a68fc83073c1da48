/** Small shared vocabulary: optional values and the clock reading a request sees. */
module Base {

  /** `undefined`/`null` versus a present value. */
  datatype Option<+T> = None | Some(value: T) {
    function GetOr(default: T): T {
      match this
      case Some(v) => v
      case None => default
    }
  }

  /** One reading of the system clock: milliseconds since the epoch (`Date.now()`) and its ISO-8601 text
      (`new Date().toISOString()`). The clock is an input of the model, never read by it. */
  datatype Time = Time(ms: int, iso: string)
}
