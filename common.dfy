/** Shared vocabulary: optional values, results, errors, response envelopes and time. */
module Common {

  /** A value that may be absent: a missing storage key, an undefined object field. */
  datatype Option<+T> = None | Some(value: T) {
    function GetOr(default: T): T {
      match this
      case Some(v) => v
      case None => default
    }
  }

  /** The outcome of an operation that may throw. */
  datatype Result<+T, +E> = Ok(value: T) | Err(error: E)

  /** A thrown `Error`: its message and, where the code attaches one, `response.status`. */
  datatype ApiError = ApiError(message: string, status: Option<int>)

  /** The `{ success, data, message }` body every simulated call answers with. */
  datatype Envelope<+T> = Envelope(success: bool, data: T, message: string)

  /** The `{ success, message }` body of the reset calls, which carries no data. */
  datatype Ack = Ack(success: bool, message: string)

  /** The outer `{ data: … }` wrapper the plans module puts around its bodies. */
  datatype Wrapped<+T> = Wrapped(data: T)

  const SecondMs: int := 1000
  const HourMs: int := 60 * 60 * SecondMs
  const DayMs: int := 24 * HourMs

  /** A JavaScript `Date`: a count of milliseconds since the epoch, or the invalid
      date that `new Date(x)` gives for a missing or unparseable `x`. */
  datatype Instant = At(ms: int) | InvalidDate
}
