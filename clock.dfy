/** Time as the services see it. `time.Now()` is never called inside the model: every
    operation that reads the clock takes the instant as a parameter. */
module Clock {

  /** An instant, as whole nanoseconds since the Unix epoch in UTC (the integer form in
      which the code response serialises its timestamps). */
  type Time = int

  /** A signed span of nanoseconds, as Go's `time.Duration`. */
  type Duration = int

  /** Go's `t.After(u)`: `t` is strictly later than `u`. */
  predicate After(t: Time, u: Time) { t > u }

  /** Go's `t.Before(u)`: `t` is strictly earlier than `u`. */
  predicate Before(t: Time, u: Time) { t < u }

  /** Go's `t.Add(d)`. */
  function Add(t: Time, d: Duration): Time { t + d }

  /** One minute, the unit in which the configuration gives intervals. */
  const Minute: Duration := 60_000_000_000
}
