/** Time in nanoseconds. */
module Clock {
  const SECOND := 1_000_000_000

  /** `time.Time.Unix`: truncates to whole seconds. */
  function Unix(t: int): int {
    t / SECOND
  }
}
