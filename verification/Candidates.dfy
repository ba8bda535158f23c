/** Which rows a reload brings into memory.

    A reload leaves out clocked tasks beyond the next forced reload, and crontabs whose plain hour lies
    outside a window of two hours around the server's hour. This module states the filter row by row and
    says exactly when the crontab window hides a task that is about to run or overdue. */
module Candidates {
  import opened Base
  import opened Models

  const HOUR: int := 3600 * SECOND

  /** What the query computes from the clock and the zones before it looks at any row. */
  datatype Filter = Filter(cutoff: Time, serverHour: int, offsets: map<string, int>)

  /******* Plain hours *******/

  predicate Digit(c: char) { '0' <= c <= '9' }

  function DigitValue(c: char): int { c as int - '0' as int }

  /** One or two digits that denote an hour of the day. */
  predicate PlainHour(s: string) {
    || (|s| == 1 && Digit(s[0]))
    || (|s| == 2 && Digit(s[0]) && Digit(s[1]) && 10 * DigitValue(s[0]) + DigitValue(s[1]) < 24)
  }

  /** `Cast('hour', IntegerField())` on a plain hour. */
  function HourValue(s: string): (h: int)
    requires PlainHour(s)
    ensures 0 <= h < 24
  {
    if |s| == 1 then DigitValue(s[0]) else 10 * DigitValue(s[0]) + DigitValue(s[1])
  }

  function ToDigit(d: int): char
    requires 0 <= d < 10
  {
    '0' + d as char
  }

  /** `str(hour)` and `f"{hour:02d}"`. */
  function Str(h: int): string
    requires 0 <= h < 24
  {
    if h < 10 then [ToDigit(h)] else Padded(h)
  }

  function Padded(h: int): string
    requires 0 <= h < 24
  {
    [ToDigit(h / 10), ToDigit(h % 10)]
  }

  /** `_get_valid_hour_formats`. */
  function ValidHourFormats(): seq<string> {
    seq(24, h requires 0 <= h < 24 => Str(h)) + seq(10, h requires 0 <= h < 10 => Padded(h))
  }

  lemma StrIsPlain(h: int)
    requires 0 <= h < 24
    ensures PlainHour(Str(h)) && HourValue(Str(h)) == h
    ensures PlainHour(Padded(h)) && HourValue(Padded(h)) == h
  {
  }

  lemma DigitRoundTrip(c: char)
    requires Digit(c)
    ensures 0 <= DigitValue(c) < 10 && ToDigit(DigitValue(c)) == c
  {
  }

  /** The list of formats is exactly the plain hours, each of which casts to the hour it was built from. */
  lemma HourFormatsExact(s: string)
    ensures s in ValidHourFormats() <==> PlainHour(s)
    ensures |ValidHourFormats()| == 34
  {
    var all := ValidHourFormats();
    if s in all {
      var i :| 0 <= i < |all| && all[i] == s;
      StrIsPlain(if i < 24 then i else i - 24);
    }
    if PlainHour(s) {
      var h := HourValue(s);
      DigitRoundTrip(s[0]);
      if |s| == 1 {
        assert all[h] == Str(h) == s;
      } else {
        DigitRoundTrip(s[1]);
        assert s == Padded(h);
        if h < 10 {
          assert all[24 + h] == Padded(h);
        } else {
          assert all[h] == Str(h);
        }
      }
    }
  }

  /******* The filter, row by row *******/

  /** SQL's remainder takes the sign of the dividend. */
  function SqlMod(a: int, b: int): int
    requires b > 0
  {
    if a >= 0 then a % b else -((-a) % b)
  }

  /** The annotation `server_hour`. */
  function ServerHour(f: Filter, c: Crontab): int
    requires PlainHour(c.hour)
  {
    if c.zone in f.offsets then SqlMod(HourValue(c.hour) + f.offsets[c.zone] + 24, 24) else HourValue(c.hour)
  }

  /** A zone without an offset: the hour as it is. */
  lemma DefaultHour(f: Filter, c: Crontab)
    requires PlainHour(c.hour) && c.zone !in f.offsets
    ensures ServerHour(f, c) == HourValue(c.hour)
  {
  }

  /** `hours_to_include`. */
  function HoursToInclude(serverHour: int): seq<int> {
    [(serverHour - 2) % 24, (serverHour - 1) % 24, serverHour % 24, (serverHour + 1) % 24, (serverHour + 2) % 24, 4]
  }

  predicate InWindow(serverHour: int, h: int) {
    h in HoursToInclude(serverHour)
  }

  predicate CrontabExcluded(f: Filter, c: Crontab) {
    PlainHour(c.hour) && !InWindow(f.serverHour, ServerHour(f, c))
  }

  /** The rows a reload keeps. */
  predicate Keep(f: Filter, r: Row) {
    && r.enabled
    && (r.config.clocked.Some? ==> r.config.clocked.value.content <= f.cutoff)
    && (r.config.crontab.Some? ==> !CrontabExcluded(f, r.config.crontab.value.content))
  }

  /******* Zones *******/

  /** A time zone: its offset at the fixed date 2023-01-01 12:00, and its offset at every instant. */
  datatype Zone = Zone(fixed: int, at: Time -> int)

  /** `int(seconds / 3600)`. */
  function TruncHours(d: int): int {
    if d >= 0 then d / HOUR else -((-d) / HOUR)
  }

  /** The fraction is cut off, on both sides of zero. */
  lemma TruncationExactly(d: int)
    ensures d >= 0 ==> TruncHours(d) * HOUR <= d < (TruncHours(d) + 1) * HOUR
    ensures TruncHours(-d) == -TruncHours(d)
  {
  }

  /** `_get_timezone_offset`. */
  function ZoneOffset(server: Zone, target: Zone): int {
    TruncHours(server.fixed - target.fixed)
  }

  function HourCount(t: Time, offset: int): int { (t + offset) / HOUR }

  /** The hour a wall clock shows. */
  function LocalHour(t: Time, offset: int): int { HourCount(t, offset) % 24 }

  /** The filter is the one that a refresh at `q` builds, as far as the zone `name` is concerned. */
  predicate BuiltAt(f: Filter, q: Time, server: Zone, name: string, target: Zone) {
    && f.cutoff == q + SYNC_MAX_INTERVAL
    && f.serverHour == LocalHour(q, server.at(q))
    && name in f.offsets && f.offsets[name] == ZoneOffset(server, target)
  }

  /** How far the integer offset is from the real difference, between the server's offset at the refresh
      and the target's offset at the firing. */
  function OffsetError(server: Zone, target: Zone, refresh: Time, firing: Time): int {
    ZoneOffset(server, target) * HOUR - (server.at(refresh) - target.at(firing))
  }

  lemma ModShift(a: int, b: int, k: int)
    requires b == a + k
    ensures b % 24 == (a % 24 + k) % 24
  {
    assert b == 24 * (a / 24) + (a % 24 + k);
    ModOfMultiple(a / 24, a % 24 + k);
  }

  lemma ModOfMultiple(n: int, r: int)
    ensures (24 * n + r) % 24 == r % 24
  {
    assert 24 * n + r == 24 * (n + r / 24) + r % 24;
    ModUnique(24 * n + r, n + r / 24, r % 24);
  }

  lemma ModUnique(a: int, q: int, r: int)
    requires a == 24 * q + r && 0 <= r < 24
    ensures a % 24 == r
  {
  }

  lemma DivBounds(a: int, lo: int, hi: int)
    requires lo * HOUR <= a < (hi + 1) * HOUR
    ensures lo <= a / HOUR <= hi
  {
  }

  lemma DivShift(a: int, k: int)
    ensures (a + k * HOUR) / HOUR == a / HOUR + k
  {
  }

  /** The server-equivalent hour of a firing instant, counted from the refresh. */
  lemma EquivalentHour(server: Zone, target: Zone, refresh: Time, firing: Time)
    ensures var off := ZoneOffset(server, target);
            var u := refresh + server.at(refresh);
            var moved := u % HOUR + (firing - refresh) + OffsetError(server, target, refresh, firing);
            HourCount(firing, target.at(firing)) + off == HourCount(refresh, server.at(refresh)) + moved / HOUR
  {
    var off := ZoneOffset(server, target);
    var u := refresh + server.at(refresh);
    var moved := u % HOUR + (firing - refresh) + OffsetError(server, target, refresh, firing);
    DivShift(firing + target.at(firing), off);
    DivShift(moved, u / HOUR);
    assert firing + target.at(firing) + off * HOUR == moved + (u / HOUR) * HOUR;
  }

  /** The filter's answer for a crontab whose hour comes up at `firing`, given a refresh at `refresh`. */
  predicate Kept(server: Zone, target: Zone, refresh: Time, firing: Time) {
    var h := LocalHour(firing, target.at(firing)) + ZoneOffset(server, target) + 24;
    InWindow(LocalHour(refresh, server.at(refresh)), SqlMod(h, 24))
  }

  /** The hour that the query computes, as a distance from the server's hour. */
  lemma ComputedHour(server: Zone, target: Zone, refresh: Time, firing: Time) returns (k: int)
    requires LocalHour(firing, target.at(firing)) + ZoneOffset(server, target) + 24 >= 0
    ensures k == ((refresh + server.at(refresh)) % HOUR + (firing - refresh)
                  + OffsetError(server, target, refresh, firing)) / HOUR
    ensures SqlMod(LocalHour(firing, target.at(firing)) + ZoneOffset(server, target) + 24, 24)
         == (LocalHour(refresh, server.at(refresh)) + k) % 24
  {
    var off := ZoneOffset(server, target);
    var a, c := HourCount(refresh, server.at(refresh)), HourCount(firing, target.at(firing));
    EquivalentHour(server, target, refresh, firing);
    k := ((refresh + server.at(refresh)) % HOUR + (firing - refresh)
          + OffsetError(server, target, refresh, firing)) / HOUR;
    ModShift(c, c + off, off);
    ModOfMultiple(1, c % 24 + off);
    ModShift(a, a + k, k);
  }

  /** The firing comes `wait` after the refresh (or before it, if negative), and with the offset's error added
      this is at most two hours either way. */
  predicate InReach(wait: int, error: int) {
    -2 * HOUR <= wait + error <= 2 * HOUR
  }

  /** The window keeps every crontab whose firing is in reach, whether it is still to come or overdue. */
  lemma WindowIsSafe(server: Zone, target: Zone, refresh: Time, firing: Time)
    requires LocalHour(firing, target.at(firing)) + ZoneOffset(server, target) + 24 >= 0
    requires InReach(firing - refresh, OffsetError(server, target, refresh, firing))
    ensures Kept(server, target, refresh, firing)
  {
    var k := KeptExactly(server, target, refresh, firing);
    DivBounds((refresh + server.at(refresh)) % HOUR + (firing - refresh)
              + OffsetError(server, target, refresh, firing), -2, 2);
  }

  /** Within the day around the refresh, a crontab is kept exactly if the hour that the query computes is at most
      two away from the server's, or is four o'clock. */
  lemma KeptExactly(server: Zone, target: Zone, refresh: Time, firing: Time) returns (k: int)
    requires LocalHour(firing, target.at(firing)) + ZoneOffset(server, target) + 24 >= 0
    requires -21 * HOUR <= firing - refresh + OffsetError(server, target, refresh, firing) <= 21 * HOUR
    ensures k == ((refresh + server.at(refresh)) % HOUR + (firing - refresh)
                  + OffsetError(server, target, refresh, firing)) / HOUR
    ensures Kept(server, target, refresh, firing) <==>
            -2 <= k <= 2 || (LocalHour(refresh, server.at(refresh)) + k) % 24 == 4
  {
    k := ComputedHour(server, target, refresh, firing);
    DivBounds((refresh + server.at(refresh)) % HOUR + (firing - refresh)
              + OffsetError(server, target, refresh, firing), -21, 21);
    WindowExactly(LocalHour(refresh, server.at(refresh)), k);
  }

  lemma InTheWindow(a: int, k: int)
    requires -2 <= k <= 2
    ensures InWindow(a, (a + k) % 24)
  {
    var hours := HoursToInclude(a);
    assert hours[k + 2] == (a + k) % 24;
  }

  lemma WindowExactly(a: int, k: int)
    requires -21 <= k <= 21
    ensures InWindow(a, (a + k) % 24) <==> -2 <= k <= 2 || (a + k) % 24 == 4
  {
    if -2 <= k <= 2 {
      InTheWindow(a, k);
    } else {
      HoursDiffer(a, -2, k);
      HoursDiffer(a, -1, k);
      HoursDiffer(a, 0, k);
      HoursDiffer(a, 1, k);
      HoursDiffer(a, 2, k);
    }
    assert HoursToInclude(a)[5] == 4;
  }

  lemma HoursDiffer(a: int, j: int, k: int)
    requires j != k && -24 < j - k < 24
    ensures (a + j) % 24 != (a + k) % 24
  {
    assert a + j == 24 * ((a + j) / 24) + (a + j) % 24;
    assert a + k == 24 * ((a + k) / 24) + (a + k) % 24;
  }

  /** An instant at which the server's clock shows a given hour, a given time into it. */
  lemma InstantAt(h: int, into: int, offset: int) returns (t: Time)
    requires 0 <= h < 24 && 0 <= into < HOUR
    ensures LocalHour(t, offset) == h && (t + offset) % HOUR == into
  {
    t := h * HOUR + into - offset;
    DivShift(into, h);
    assert (t + offset) / HOUR == h;
  }

  predicate KeptAfter(server: Zone, target: Zone, refresh: Time, wait: int) {
    Kept(server, target, refresh, refresh + wait)
  }

  /** Out of reach, some refresh hides the crontab. */
  lemma HidingRefresh(server: Zone, target: Zone, s: int, z: int, wait: int) returns (refresh: Time)
    requires (forall t :: server.at(t) == s) && (forall t :: target.at(t) == z)
    requires ZoneOffset(server, target) >= -24
    requires var error := ZoneOffset(server, target) * HOUR - (s - z);
             !InReach(wait, error) && -20 * HOUR <= wait + error <= 20 * HOUR
    ensures !KeptAfter(server, target, refresh, wait)
  {
    var d := wait + ZoneOffset(server, target) * HOUR - (s - z);
    var into := if d > 0 then HOUR - 1 else 0;
    var e := (into + d) / HOUR;
    DivBounds(into + d, if d > 0 then 3 else -20, if d > 0 then 20 else -3);
    var h := (12 - e) % 24;
    refresh := InstantAt(h, into, s);
    var k := KeptExactly(server, target, refresh, refresh + wait);
    assert k == e;
    assert (h + e) % 24 == 12 by {
      ModShift(12 - e, 12, e);
    }
  }

  /** The bound is exact, ahead and behind: for fixed offsets, a crontab that comes up at a given distance from a
      refresh is kept by every such refresh if and only if it is in reach (up to a wrap around the day). */
  lemma WindowIsTight(server: Zone, target: Zone, s: int, z: int, wait: int)
    requires (forall t :: server.at(t) == s) && (forall t :: target.at(t) == z)
    requires ZoneOffset(server, target) >= -24
    requires -20 * HOUR <= wait + ZoneOffset(server, target) * HOUR - (s - z) <= 20 * HOUR
    ensures (forall refresh :: KeptAfter(server, target, refresh, wait)) <==>
            InReach(wait, ZoneOffset(server, target) * HOUR - (s - z))
  {
    if InReach(wait, ZoneOffset(server, target) * HOUR - (s - z)) {
      forall refresh ensures KeptAfter(server, target, refresh, wait) {
        WindowIsSafe(server, target, refresh, refresh + wait);
      }
    } else {
      var refresh := HidingRefresh(server, target, s, z, wait);
    }
  }

  /** The errors with which everything from `back` before a refresh to the end of its horizon is in reach. */
  predicate Safe(error: int, back: int) {
    -2 * HOUR + back <= error <= 2 * HOUR - SYNC_MAX_INTERVAL + 1
  }

  lemma SafeExactly(error: int, back: int)
    requires back >= 0
    ensures Safe(error, back) <==> forall wait :: -back <= wait < SYNC_MAX_INTERVAL ==> InReach(wait, error)
  {
    if forall wait :: -back <= wait < SYNC_MAX_INTERVAL ==> InReach(wait, error) {
      assert InReach(-back, error);
      assert InReach(SYNC_MAX_INTERVAL - 1, error);
    }
  }

  /** A crontab overdue by three hours or more (less than a day, the error included) is hidden by every refresh,
      unless its hour is four o'clock on the server: beat that was away for so long runs it only when the window
      comes round again. */
  lemma LongOverdueIsHidden(server: Zone, target: Zone, refresh: Time, firing: Time)
    requires LocalHour(firing, target.at(firing)) + ZoneOffset(server, target) + 24 >= 0
    requires -21 * HOUR <= firing - refresh + OffsetError(server, target, refresh, firing) <= -3 * HOUR
    ensures Kept(server, target, refresh, firing) <==>
            SqlMod(LocalHour(firing, target.at(firing)) + ZoneOffset(server, target) + 24, 24) == 4
  {
    var k := KeptExactly(server, target, refresh, firing);
    var j := ComputedHour(server, target, refresh, firing);
    DivBounds((refresh + server.at(refresh)) % HOUR + (firing - refresh)
              + OffsetError(server, target, refresh, firing), -21, -3);
  }

  /******* The cases met in practice *******/

  /** Zones whose difference is a multiple of fifteen minutes, with the fixed offset wrong by at most an hour in
      either direction (one side on daylight saving time): safe, also for what is a quarter of an hour overdue. */
  lemma QuarterHourZonesAreSafe(server: Zone, target: Zone, refresh: Time, firing: Time)
    requires (server.fixed - target.fixed) % (HOUR / 4) == 0
    requires -HOUR <= (server.fixed - target.fixed) - (server.at(refresh) - target.at(firing)) <= HOUR
    ensures Safe(OffsetError(server, target, refresh, firing), HOUR / 4)
  {
    QuarterTruncation(server.fixed - target.fixed);
  }

  /** Zones whole hours apart: the error is the drift since the fixed date. With a drift of at most an hour, what
      is an hour overdue is still in reach; with none, what is two hours overdue. */
  lemma WholeHourZonesAreSafe(server: Zone, target: Zone, refresh: Time, firing: Time)
    requires (server.fixed - target.fixed) % HOUR == 0
    ensures var drift := (server.fixed - target.fixed) - (server.at(refresh) - target.at(firing));
            && OffsetError(server, target, refresh, firing) == drift
            && (-HOUR <= drift <= HOUR ==> Safe(OffsetError(server, target, refresh, firing), HOUR))
            && (drift == 0 ==> Safe(OffsetError(server, target, refresh, firing), 2 * HOUR))
  {
    var d := server.fixed - target.fixed;
    var e := if d >= 0 then d else -d;
    assert e == (e / HOUR) * HOUR + e % HOUR;
    assert e % HOUR == 0;
  }

  /** Cutting quarter hours off loses at most three of them. */
  lemma QuarterTruncation(d: int)
    requires d % (HOUR / 4) == 0
    ensures -3 * (HOUR / 4) <= TruncHours(d) * HOUR - d <= 3 * (HOUR / 4)
  {
    var e := if d >= 0 then d else -d;
    QuartersLeft(e, e / (HOUR / 4), e / HOUR);
  }

  lemma QuartersLeft(e: int, q: int, h: int)
    requires e == q * 900_000_000 && h * 3_600_000_000 <= e < (h + 1) * 3_600_000_000
    ensures e - h * 3_600_000_000 <= 2_700_000_000
  {
    assert 4 * h <= q <= 4 * h + 3;
  }

  /** Any offsets at all, as long as the difference is the one of the fixed date: safe, also for what is an hour
      overdue. */
  lemma NoDriftIsSafe(server: Zone, target: Zone, refresh: Time, firing: Time)
    requires server.at(refresh) - target.at(firing) == server.fixed - target.fixed
    ensures Safe(OffsetError(server, target, refresh, firing), HOUR)
  {
  }

  /** Without drift the error falls to one side: towards the past for a server ahead of the crontab's zone, towards
      the future for a server behind it, by less than an hour, and not at all if they are whole hours apart. */
  lemma TruncationSide(server: Zone, target: Zone, refresh: Time, firing: Time)
    requires server.at(refresh) - target.at(firing) == server.fixed - target.fixed
    ensures var d, error := server.fixed - target.fixed, OffsetError(server, target, refresh, firing);
            && (d >= 0 ==> -HOUR < error <= 0)
            && (d <= 0 ==> 0 <= error < HOUR)
            && (error == 0 <==> d % HOUR == 0)
  {
    var d := server.fixed - target.fixed;
    TruncationExactly(d);
    TruncationExactly(-d);
    WholeHours(d, ZoneOffset(server, target));
  }

  lemma WholeHours(d: int, h: int)
    requires -HOUR < h * HOUR - d < HOUR
    ensures h * HOUR == d <==> d % HOUR == 0 && (d >= 0 ==> h * HOUR <= d) && (d <= 0 ==> d <= h * HOUR)
  {
    assert d == (d / 3_600_000_000) * 3_600_000_000 + d % 3_600_000_000;
  }

  /** A server on UTC and a crontab at +5:30, as the query sees it: fifteen o'clock there is ten here, not nine. */
  lemma HalfHourZone(c: Crontab, f: Filter)
    requires c.hour == "15" && c.zone in f.offsets
    requires f.offsets[c.zone] == ZoneOffset(UTC, Zone(11 * (HOUR / 2), _ => 11 * (HOUR / 2)))
    ensures f.offsets[c.zone] == -5 && ServerHour(f, c) == 10
  {
    assert PlainHour("15") && HourValue("15") == 15;
  }

  /** A server on UTC, as it always is with `USE_TZ` on. */
  const UTC: Zone := Zone(0, _ => 0)

  /** With a server on UTC, every crontab zone of this world is safe: on quarter hours, within a day of UTC, and at
      most an hour from its offset at the fixed date. What is a quarter of an hour overdue is still in reach. */
  lemma UtcServerIsSafe(target: Zone, refresh: Time, firing: Time)
    requires target.fixed % (HOUR / 4) == 0 && -24 * HOUR <= target.fixed <= 24 * HOUR
    requires -HOUR <= target.at(firing) - target.fixed <= HOUR
    ensures Safe(OffsetError(UTC, target, refresh, firing), HOUR / 4)
    ensures ZoneOffset(UTC, target) + 24 >= 0
  {
    QuarterOfMinus(target.fixed);
    QuarterHourZonesAreSafe(UTC, target, refresh, firing);
    assert TruncHours(-target.fixed) * HOUR >= -target.fixed - 3 * (HOUR / 4) by {
      QuarterTruncation(-target.fixed);
    }
  }

  lemma QuarterOfMinus(d: int)
    requires d % (HOUR / 4) == 0
    ensures (0 - d) % (HOUR / 4) == 0
  {
    assert d == (d / (HOUR / 4)) * (HOUR / 4);
    assert 0 - d == (-(d / (HOUR / 4))) * 900_000_000;
  }

  /** Without `USE_TZ` the server is in the project's zone. A server in a southern zone and a crontab in a northern
      one, in the northern summer: both sides have moved since January, the offset is wrong by two hours, and a firing
      shortly after a refresh can be hidden. */
  lemma TwoHourDriftHides() returns (server: Zone, target: Zone, refresh: Time, firing: Time)
    ensures server.fixed == 11 * HOUR && target.fixed == -5 * HOUR
    ensures (forall t :: server.at(t) == 10 * HOUR) && (forall t :: target.at(t) == -4 * HOUR)
    ensures firing == refresh + 60 * SECOND
    ensures !Kept(server, target, refresh, firing)
  {
    server, target := Zone(11 * HOUR, _ => 10 * HOUR), Zone(-5 * HOUR, _ => -4 * HOUR);
    refresh := HidingRefresh(server, target, 10 * HOUR, -4 * HOUR, 60 * SECOND);
    firing := refresh + 60 * SECOND;
  }

  /** The other way round, `USE_TZ` off again: a northern server and a southern crontab. Whatever is still to come is
      in reach, but a crontab that came up a minute before the refresh can be hidden. */
  lemma JustMissedIsHidden() returns (server: Zone, target: Zone, refresh: Time, firing: Time)
    ensures server.fixed == -5 * HOUR && target.fixed == 11 * HOUR
    ensures (forall t :: server.at(t) == -4 * HOUR) && (forall t :: target.at(t) == 10 * HOUR)
    ensures firing == refresh - 60 * SECOND
    ensures Safe(OffsetError(server, target, refresh, firing), 0)
    ensures !Kept(server, target, refresh, firing)
  {
    server, target := Zone(-5 * HOUR, _ => -4 * HOUR), Zone(11 * HOUR, _ => 10 * HOUR);
    refresh := HidingRefresh(server, target, -4 * HOUR, 10 * HOUR, -60 * SECOND);
    firing := refresh - 60 * SECOND;
  }

  /** SQL's remainder of a negative number is negative, and no window holds a negative hour: a crontab is
      left out of every reload, whatever the server's hour, exactly when its hour plus the offset is below
      minus a day. Real zone pairs reach an offset of -26. */
  lemma HiddenFromEveryReload(c: Crontab, offsets: map<string, int>, cutoff: Time)
    requires PlainHour(c.hour) && c.zone in offsets && offsets[c.zone] > -48
    ensures (forall h :: CrontabExcluded(Filter(cutoff, h, offsets), c)) <==>
            HourValue(c.hour) + offsets[c.zone] + 24 < 0
  {
    var x := HourValue(c.hour) + offsets[c.zone] + 24;
    if x >= 0 {
      InTheWindow(x % 24, 0);
      assert !CrontabExcluded(Filter(cutoff, x % 24, offsets), c);
    } else {
      forall h ensures CrontabExcluded(Filter(cutoff, h, offsets), c) {
        assert SqlMod(x, 24) < 0;
      }
    }
  }

  /** The pair that reaches an offset of -26, with `USE_TZ` off: a server twelve hours behind UTC and a crontab fourteen
      ahead, at midnight. No reload ever loads it. */
  lemma FarthestZonesHideMidnight(c: Crontab, f: Filter)
    requires c.hour == "0" && c.zone in f.offsets
    requires f.offsets[c.zone] == ZoneOffset(Zone(-12 * HOUR, _ => -12 * HOUR), Zone(14 * HOUR, _ => 14 * HOUR))
    ensures f.offsets[c.zone] == -26 && CrontabExcluded(f, c)
  {
    assert PlainHour("0") && HourValue("0") == 0;
    HiddenFromEveryReload(c, f.offsets, f.cutoff);
    assert f == Filter(f.cutoff, f.serverHour, f.offsets);
  }

  /** For the filter that a refresh builds, an enabled crontab row with a plain hour that comes up in reach of the
      refresh, before it or after it, is kept. Any other hour expression is kept anyway. */
  lemma FilterKeepsDueCrontab(r: Row, f: Filter, server: Zone, target: Zone, refresh: Time, firing: Time)
    requires r.enabled && r.config.crontab.Some? && r.config.clocked.None?
    requires BuiltAt(f, refresh, server, r.config.crontab.value.content.zone, target)
    requires var c := r.config.crontab.value.content;
             PlainHour(c.hour) ==>
               && LocalHour(firing, target.at(firing)) == HourValue(c.hour)
               && HourValue(c.hour) + ZoneOffset(server, target) + 24 >= 0
               && InReach(firing - refresh, OffsetError(server, target, refresh, firing))
    ensures Keep(f, r)
  {
    if PlainHour(r.config.crontab.value.content.hour) {
      WindowIsSafe(server, target, refresh, firing);
    }
  }
}
