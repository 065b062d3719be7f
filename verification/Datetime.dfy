/** Points in time as `datetime` has them: a wall-clock reading in the years 1 to 9999, with or
    without an offset from UTC. */
module Datetime {
  import opened ByteStrings

  /** Microseconds in a day, and from the first to past the last representable wall-clock reading. */
  const DAY: int := 86400000000
  const WALL_END: int := 315537897600000000

  /** `wall` counts microseconds from midnight of 1 January of the year 1; `offset` is none for a
      naive `datetime`. */
  datatype Reading = Reading(wall: int, offset: Option<int>)

  type DateTime = t: Reading | 0 <= t.wall < WALL_END witness Reading(0, None)

  /** `parse_rfc3339`; `None` is `ValueError`. */
  type Parse = string -> Option<DateTime>

  predicate Aware(t: DateTime) {
    t.offset.Some?
  }

  /** Microseconds of UTC; of an unknown zone when the reading is naive. */
  function Instant(t: DateTime): int {
    if t.offset.Some? then t.wall - t.offset.value else t.wall
  }

  /** `a < b`; `None` is the `TypeError` of comparing a naive with an aware reading. */
  function Less(a: DateTime, b: DateTime): Option<bool> {
    if Aware(a) != Aware(b) then None else Some(Instant(a) < Instant(b))
  }

  /** `t + timedelta(...)` moves the wall clock; `None` is the `OverflowError` past either end. */
  function Plus(t: DateTime, micros: int): Option<DateTime> {
    if 0 <= t.wall + micros < WALL_END then Some(t.(wall := t.wall + micros)) else None
  }

  /** The instant a stamp of the service's clock stands for: the clock writes UTC. */
  function ClockReading(parse: Parse, at: string): Option<int> {
    var t :- parse(at);
    if Aware(t) then Some(Instant(t)) else None
  }
}
