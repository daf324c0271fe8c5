/**
 * Time as integer seconds since the Unix epoch (UTC). The edge functions' `addDaysIso` and
 * `new Date(seconds * 1000).toISOString()` become arithmetic on these seconds.
 */
module Clock {

  const SecondsPerDay: int := 86400

  /** JavaScript dates are limited to 8.64e15 milliseconds either side of the epoch. */
  const MaxEpochSeconds: int := 8_640_000_000_000

  /** `addDaysIso(days)` evaluated at clock reading `now`, in UTC (no daylight-saving shifts). */
  function AddDays(now: int, days: int): (t: int)
    ensures t - now == days * SecondsPerDay
    ensures days > 0 ==> t > now
  {
    now + days * SecondsPerDay
  }

  /**
   * `new Date(seconds * 1000).toISOString()` succeeds: outside this range the date is invalid
   * and `toISOString` throws a RangeError.
   */
  predicate ValidInstant(seconds: int) {
    -MaxEpochSeconds <= seconds <= MaxEpochSeconds
  }
}
