/** The unit of time: clocks and durations are in nanoseconds. */
module Clock {
  const SECOND: nat := 1_000_000_000
}
