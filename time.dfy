/**
 * What the generator takes from its date-time library. A zoned time is a
 * record whose civil fields the generator reads (year, month, day, hour,
 * minute, second); adding seconds to it and the two renderings it does not
 * build itself (the RFC 3339 form of the instant, section 5.6 of RFC 3339,
 * and the `%Y-%m-%dT%H:%M:%S%.f%:z` form) are supplied as a `Calendar`.
 */
module Time {

  /**
   * A zoned date-time. `nanosecond` and `offsetSeconds` are never read by the
   * generator directly; they are here because the library's renderings and
   * its arithmetic depend on them.
   */
  datatype DateTime = DateTime(
    year: int, month: int, day: int,
    hour: int, minute: int, second: int,
    nanosecond: nat, offsetSeconds: int)

  predicate InRange(t: DateTime) {
    && 0 <= t.year <= 9999
    && 1 <= t.month <= 12
    && 1 <= t.day <= 31
    && 0 <= t.hour < 24
    && 0 <= t.minute < 60
    && 0 <= t.second < 60
    && t.nanosecond < 1_000_000_000
  }

  type Zoned = t: DateTime | InRange(t) witness DateTime(2024, 1, 1, 0, 0, 0, 0, 0)

  /**
   * The library operations the generator calls but does not define. A
   * zoned time stands for an instant on the time line, counted in seconds;
   * adding seconds moves along the time line and reads the civil fields
   * back in the same zone.
   */
  datatype Calendar = Calendar(
    instant: Zoned -> int,               // the instant a zoned time stands for, in seconds
    atInstant: int -> Zoned,             // the zoned time of an instant, in the zone of the run
    instantText: Zoned -> string,        // `ts.timestamp()` displayed: RFC 3339 in UTC
    extendedText: Zoned -> string)       // `strtime::format("%Y-%m-%dT%H:%M:%S%.f%:z", ts)`

  /** `ts.add(Span::new().seconds(n))`: exact-time arithmetic. */
  function AddSeconds(cal: Calendar, t: Zoned, n: nat): Zoned {
    cal.atInstant(cal.instant(t) + n)
  }

  /**
   * Between the instants `lo` and `hi`, the zoned time of an instant
   * stands for that instant. Years are bounded, so no calendar can do this
   * for every instant; the runs ask it only from the start of the run to
   * the start plus the span.
   */
  ghost predicate Consistent(cal: Calendar, lo: int, hi: int) {
    forall i :: lo <= i <= hi ==> cal.instant(cal.atInstant(i)) == i
  }

  /** With a calendar consistent over the instants reached, adding nothing changes no instant and two additions add up. */
  lemma AddSecondsAdds(cal: Calendar, t: Zoned, a: nat, b: nat)
    requires Consistent(cal, cal.instant(t), cal.instant(t) + a + b)
    ensures cal.instant(AddSeconds(cal, t, 0)) == cal.instant(t)
    ensures AddSeconds(cal, AddSeconds(cal, t, a), b) == AddSeconds(cal, t, a + b)
  {
  }
}
