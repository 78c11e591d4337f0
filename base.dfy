/** Shared vocabulary of the model: optional values, results, identifiers and time. */
module Base {

  /** A value that may be absent (an optional schema field, a lookup that found nothing). */
  datatype Option<+T> = None | Some(value: T)

  /** The outcome of an operation that can throw: its value, or the error it raised. */
  datatype Result<+T, +E> = Ok(value: T) | Err(error: E)

  /** Document identifiers (MongoDB ObjectIds) are opaque; only equality matters. */
  type Id = nat

  /** A point in time, in milliseconds since the epoch (a `Date`). */
  type Time = int

  /** Length of a day in milliseconds: `setDate(getDate() - d)` moves a date back d days. */
  const MsPerDay: int := 86_400_000

  /** The instant `dias` days before `now`. */
  function DaysBefore(now: Time, dias: int): (t: Time)
    ensures dias >= 0 ==> t <= now
  {
    now - dias * MsPerDay
  }
}
