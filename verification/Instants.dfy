/** Which instant `is_due` reads when a task has no last run yet.

    With `USE_TZ` on, the database hands out aware datetimes. With it off, `date_changed` is a naive local
    datetime, while `is_due` takes every naive datetime for UTC; `ModelEntry.__init__` converts in between. */
module Instants {
  import opened Base
  import opened Models
  import opened Entries

  /** A datetime: an instant, or a bare wall-clock reading. */
  datatype Stamp = Aware(instant: Time) | Naive(wall: Time)

  /** The offset of the project's time zone at every instant. */
  type Offsets = Time -> int

  function Wall(off: Offsets, i: Time): Time { i + off(i) }

  /** What `auto_now` stores at instant `i`. */
  function Stamped(useTz: bool, off: Offsets, i: Time): Stamp {
    if useTz then Aware(i) else Naive(Wall(off, i))
  }

  /** `timezone.make_aware` with the default time zone: some instant that shows this reading. Where the clocks
      are put back there are two. */
  ghost predicate MakesAware(off: Offsets, wall: Time, i: Time) {
    Wall(off, i) == wall
  }

  /** The `last_run_at` that `__init__` derives from `date_changed`; `aware` is the instant that `make_aware`
      chose, used only for naive readings with `USE_TZ` off. */
  function Fallback(useTz: bool, changed: Stamp, aware: Time, hasStart: bool): Stamp {
    var last := if !useTz && changed.Naive? then Naive(aware) else changed;
    if !hasStart then last
    else if last.Aware? then Aware(last.instant - THIRTY_YEARS)
    else Naive(last.wall - THIRTY_YEARS)
  }

  /** `maybe_make_aware`: a naive datetime is taken for UTC. */
  function ReadAsUtc(s: Stamp): Time {
    if s.Aware? then s.instant else s.wall
  }

  /** Only one instant shows the reading that instant `i` shows. */
  ghost predicate Unambiguous(off: Offsets, i: Time) {
    forall j :: Wall(off, j) == Wall(off, i) ==> j == i
  }

  /** For every zone, with `USE_TZ` on or off, the instant that `is_due` reads is the instant of the last edit,
      moved back thirty years if there is a start time: the one that `Entries.StartingPoint` works with. */
  lemma FallbackKeepsInstant(useTz: bool, off: Offsets, i: Time, aware: Time, r: Row, now: Time)
    requires r.lastRunAt.None? && r.dateChanged == Some(i)
    requires MakesAware(off, Wall(off, i), aware) && (!useTz ==> Unambiguous(off, i))
    ensures ReadAsUtc(Fallback(useTz, Stamped(useTz, off, i), aware, r.config.startTime.Some?)) == StartingPoint(r, now)
  {
    if !useTz {
      assert Wall(off, aware) == Wall(off, i);
    }
  }

  /** With `USE_TZ` off, the instant is right exactly when `make_aware` picks the right one of the readings. */
  lemma FallbackExact(off: Offsets, i: Time, aware: Time, hasStart: bool)
    ensures var right := if hasStart then i - THIRTY_YEARS else i;
            ReadAsUtc(Fallback(false, Stamped(false, off, i), aware, hasStart)) == right <==> aware == i
  {
  }

  /** Without the conversion the instant would be off by the zone's offset. */
  lemma UnconvertedIsShifted(off: Offsets, i: Time)
    ensures ReadAsUtc(Stamped(false, off, i)) - i == off(i)
  {
  }

  /** What that would mean for a task that has not run: the conversion can be left out if and only if the zone's
      offset is zero. Otherwise some interval becomes due at the wrong time, as the offset moves the whole start. */
  lemma ConversionIsNeeded(off: Offsets, i: Time)
    ensures var unconverted := ReadAsUtc(Stamped(false, off, i));
            (forall period, now :: IntervalDue(period, unconverted, now).isDue <==> IntervalDue(period, i, now).isDue)
            <==> off(i) == 0
  {
    UnconvertedIsShifted(off, i);
    var unconverted := ReadAsUtc(Stamped(false, off, i));
    if off(i) != 0 {
      var now := if off(i) > 0 then i else unconverted;
      assert IntervalDue(0, unconverted, now).isDue != IntervalDue(0, i, now).isDue;
    }
  }
}
