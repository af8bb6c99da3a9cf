/** Time in nanoseconds since the Unix epoch, and its truncations. */
module UnixTime {
  const SECOND: int := 1_000_000_000
  const MICROSECOND: int := 1_000

  function Seconds(t: int): int { t / SECOND }

  function Micros(t: int): int { t / MICROSECOND }
}
