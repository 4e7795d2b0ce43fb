/** Instants of time as integers: nanoseconds since the Unix epoch, the resolution of Go's `time.Time`. */
module Instants {

  type Instant = int

  const NanosPerSecond: int := 1_000_000_000
  const NanosPerMilli: int := 1_000_000

  /** Go's zero `time.Time{}` (0001-01-01 00:00:00 UTC), the value a never-set time field holds. */
  const ZeroTime: Instant := -62135596800 * NanosPerSecond
}
