/** Small shared vocabulary: optional values, results, and time.

    Time is counted in microseconds, the resolution of a Python datetime. */
module Base {
  datatype Option<+T> = None | Some(value: T)

  datatype Result<+T, +E> = Ok(value: T) | Err(error: E)

  type Time = int

  const SECOND: int := 1_000_000
  const DAY: int := 86_400 * SECOND

  /** The reload interval and, at the same time, the look-ahead of the candidate filter. */
  const SYNC_MAX_INTERVAL: int := 300 * SECOND

  const NEVER_CHECK: int := 100_000_000 * SECOND

  /** `a or b` on optional values. */
  function Or<T>(a: Option<T>, b: T): T {
    if a.Some? then a.value else b
  }
}
