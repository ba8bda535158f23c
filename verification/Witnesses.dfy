/** Three runs of beat alone, from the start, that break a promise: a one-off task that runs twice, a reload that
    beat brings about itself, and an interval task that runs twice within its period. */
module Witnesses {
  import opened Base
  import opened Models
  import opened Entries
  import opened Candidates
  import opened Beats
  import opened Machine
  import opened Heaps
  import opened OneOff
  import opened Quiet

  /******* A one-off task runs twice *******/

  /** One crontab and one interval. */
  const TABLES: Schedules := Schedules(map[0 := 60 * SECOND], map[0 := Crontab("5", "UTC", "0 * * *")], map[], map[])

  /** A one-off task for five o'clock, in UTC. */
  const NIGHTLY: Row := Row(Config("job", "", None, Some(Ref(0, Crontab("5", "UTC", "0 * * *"))), None, None, None, None, None,
                                   Some("{}"), None, None, true, None), true, None, 0, Some(0))

  /** The filter of a reload at `q`, when the server's clock, in UTC, shows the hour `h`. */
  function FilterOf(q: Time, h: int): Filter {
    Filter(q + SYNC_MAX_INTERVAL, h, map["UTC" := 0])
  }

  lemma NightlyKept(q: Time)
    ensures Keep(FilterOf(q, 5), NIGHTLY) && !Keep(FilterOf(q, 12), NIGHTLY)
  {
    assert PlainHour("5") && HourValue("5") == 5;
    assert HoursToInclude(5) == [3, 4, 5, 6, 7, 4];
    assert HoursToInclude(5)[2] == 5;
    assert HoursToInclude(12) == [10, 11, 12, 13, 14, 4];
  }

  const DUE: Answer := Answer(SchedState(true, 60 * SECOND), 0)

  /** Beat before its first read, and after its first read, first heap and first dispatch. */
  const START: World := World(Db(map[0 := NIGHTLY], TABLES, Some(0)), 0, Beat(map[], None, false, {}, None, true, 0),
                              None, false, None, None, false, false, 0, 0)

  const READ: World := START.(
    beat := START.beat.(schedule := map["job" := Load(0, NIGHTLY, 0)], initialRead := false),
    seen := Some(Seen(START.db.rows, FilterOf(0, 5), 0)))

  const BUILT: World := READ.(
    beat := READ.beat.(heap := Some([Item("job", Load(0, NIGHTLY, 0).own)])))

  const SENT: World := BUILT.(beat := Dispatched(BUILT.beat, "job", 0, 0))

  lemma FreshNightly()
    ensures Fresh(START.db.rows, FilterOf(0, 5), 0) == map["job" := Load(0, NIGHTLY, 0)]
  {
    hide Keep;
    NightlyKept(0);
    FreshHas(START.db.rows, FilterOf(0, 5), 0, 0);
  }

  lemma StartIsInit()
    ensures Init(START)
  {
    assert RowOk(NIGHTLY);
  }

  lemma StartReads()
    ensures Gets(START, [Access(0, true)] + [Step.Refresh(0, FilterOf(0, 5))], READ, 0, 0)
  {
    hide Keep, Fresh, Gets, RowOk;
    StartIsInit();
    FreshNightly();
    GetsNowhere(START, 0);
    GetsNext(START, [], START, 0, 0, Access(0, true));
    var w := Next(START, Access(0, true));
    assert [] + [Access(0, true)] == [Access(0, true)];
    var s := Step.Refresh(0, FilterOf(0, 5));
    MergeNone(w.beat, Fresh(START.db.rows, FilterOf(0, 5), 0));
    assert Next(w, s) == READ;
    GetsNext(START, [Access(0, true)], w, 0, 0, s);
  }

  lemma ReadBuilds()
    ensures Gets(READ, [Compare(true)] + [Populate(["job"])], BUILT, 0, 0)
  {
    hide Gets;
    GetsNowhere(READ, 0);
    GetsNext(READ, [], READ, 0, 0, Compare(true));
    var w := Next(READ, Compare(true));
    assert [] + [Compare(true)] == [Compare(true)];
    assert Listing(["job"], w.beat.schedule.Keys);
    assert ItemsOf(w.beat.schedule, ["job"]) == [Item("job", Load(0, NIGHTLY, 0).own)];
    assert Next(w, Populate(["job"])) == BUILT;
    GetsNext(READ, [Compare(true)], w, 0, 0, Populate(["job"]));
  }

  lemma BuiltSends()
    ensures Gets(BUILT, [Check(0, 0, DUE)], SENT, 0, 1)
  {
    var s := Check(0, 0, DUE);
    assert Asks(BUILT, s) && AskedName(BUILT, s) == "job";
    assert Fires(VerdictOf(BUILT, s));
    AskDispatches(BUILT, s);
    GetsNowhere(BUILT, 0);
    GetsNext(BUILT, [], BUILT, 0, 0, s);
    assert [] + [s] == [s];
  }

  /** The first read, the first heap and the first dispatch. */
  lemma FirstDispatch() returns (steps: seq<Step>)
    ensures Gets(START, steps, SENT, 0, 1)
  {
    hide Gets;
    StartReads();
    ReadBuilds();
    BuiltSends();
    var a := [Access(0, true)] + [Step.Refresh(0, FilterOf(0, 5))];
    var b, c := [Compare(true)] + [Populate(["job"])], [Check(0, 0, DUE)];
    GetsOn(START, a, READ, 0, 0, b, BUILT, 0);
    GetsOn(START, a + b, BUILT, 0, 0, c, SENT, 1);
    steps := a + b + c;
  }

  /** Noon comes, and no sync has got through. */
  lemma NoonAfter(steps: seq<Step>, noon: Time) returns (w: World)
    requires noon >= SYNC_MAX_INTERVAL && Gets(START, steps, SENT, 0, 1)
    ensures Gets(START, steps + [Access(noon, false)], w, 0, 1) && Inv(w)
    ensures w.db == START.db && w.updating == Some(false) && w.fetched.None? && !w.rebuilding && w.clock == noon
    ensures w.beat.lastTimestamp == Some(0)
    ensures !w.beat.initialRead && w.beat.lastFullSync == noon
    ensures IsOneOff(w, "job", 0) && Unsaved(w, "job", 0)
  {
    StartIsInit();
    InitInv(START);
    RunKeepsInv(START, steps);
    hide Gets, Inv, Run, End;
    var s := Access(noon, false);
    assert Legal(SENT, s);
    w := Next(SENT, s);
    NextKeepsInv(SENT, s);
    GetsNext(START, steps, SENT, 0, 1, s);
  }

  lemma TwiceByThen(noon: Time, next: Time) returns (steps: seq<Step>, e: World)
    requires SYNC_MAX_INTERVAL <= noon && noon + SYNC_MAX_INTERVAL <= next
    ensures Gets(START, steps, e, 0, 2)
  {
    hide Gets, IsOneOff, Unsaved, Keep, Inv, RowOk, BeatOk;
    steps := FirstDispatch();
    var w := NoonAfter(steps, noon);
    steps := steps + [Access(noon, false)];
    NightlyKept(noon);
    NightlyKept(next);
    StartIsInit();
    var rest;
    rest, e := DroppedRunsTwice(w, "job", 0, Step.Refresh(noon, FilterOf(noon, 12)), next,
                                Step.Refresh(next, FilterOf(next, 5)), next, DUE);
    GetsOn(START, steps, w, 0, 1, rest, e, 1);
    steps := steps + rest;
  }

  /** Beat alone, from the start, with its syncs failing: dispatched at five, dropped by the reload at noon,
      brought back the next day, and dispatched a second time. */
  lemma RunsTwice() returns (steps: seq<Step>, e: World)
    ensures Init(START) && IsOneOff(START, "job", 0)
    ensures Run(START, steps) && End(START, steps) == e && Runs(START, steps, 0) == 2
    ensures forall i :: 0 <= i < |steps| ==> Alone(steps[i])
  {
    StartIsInit();
    steps, e := TwiceByThen(7 * 3600 * SECOND, 24 * 3600 * SECOND);
  }

  /******* Beat reloads because of itself *******/

  /** The same story with a sync that gets through at last: the entry that was dropped and brought back is saved
      with a bump, and the next poll of beat, which is alone, reports a change. */
  lemma ReloadsItself() returns (steps: seq<Step>, e: World)
    ensures Init(START) && Run(START, steps) && End(START, steps) == e
    ensures forall i :: 0 <= i < |steps| ==> Alone(steps[i])
    ensures Idle(e) && ScheduleChanged(e.beat.lastTimestamp, PollOf(e, false))
  {
    StartIsInit();
    var noon, next := 7 * 3600 * SECOND, 24 * 3600 * SECOND;
    var first := FirstDispatch();
    var w := NoonAfter(first, noon);
    first := first + [Access(noon, false)];
    var rest;
    rest, e := NoiseAfter(w, noon, next);
    steps := first + rest;
    JoinedAlone(first, w, rest);
  }

  lemma JoinedAlone(first: seq<Step>, w: World, rest: seq<Step>)
    requires Gets(START, first, w, 0, 1)
    requires Run(w, rest) && forall i :: 0 <= i < |rest| ==> Alone(rest[i])
    ensures Run(START, first + rest) && End(START, first + rest) == End(w, rest)
    ensures forall i :: 0 <= i < |first + rest| ==> Alone((first + rest)[i])
  {
    hide Run, End, Runs;
    RunsTogether(START, first, rest, 0);
  }

  lemma NoiseAfter(w: World, noon: Time, next: Time) returns (steps: seq<Step>, e: World)
    requires SYNC_MAX_INTERVAL <= noon && noon + SYNC_MAX_INTERVAL <= next
    requires Inv(w) && w.db == START.db && w.updating == Some(false) && w.fetched.None? && w.clock == noon
    requires !w.beat.initialRead && w.beat.lastFullSync == noon && w.beat.lastTimestamp == Some(0)
    requires "job" in w.beat.dirty
    ensures Run(w, steps) && End(w, steps) == e && forall i :: 0 <= i < |steps| ==> Alone(steps[i])
    ensures Idle(e) && ScheduleChanged(e.beat.lastTimestamp, PollOf(e, false))
  {
    hide Keep, Inv, RowOk, BeatOk, Run, End;
    NightlyKept(noon);
    NightlyKept(next);
    StartIsInit();
    steps, e := DroppedMakesNoise(w, "job", 0, Step.Refresh(noon, FilterOf(noon, 12)), next,
                                  Step.Refresh(next, FilterOf(next, 5)), next);
  }

  /******* An interval task runs twice within a second *******/

  /** A task for every minute. */
  const MINUTELY: Row := Row(Config("job", "", Some(Ref(0, 60 * SECOND)), None, None, None, None, None, None, Some("{}"),
                                    None, None, false, None), true, None, 0, Some(0))

  const FIRST: World := START.(db := Db(map[0 := MINUTELY], TABLES, Some(0)))

  /** Beat after its first read, in the middle of building its first heap. */
  const BUILDING: World := FIRST.(
    beat := FIRST.beat.(schedule := map["job" := Load(0, MINUTELY, 0)], initialRead := false),
    rebuilding := true,
    seen := Some(Seen(FIRST.db.rows, FilterOf(0, 5), 0)))

  lemma FreshMinutely(q: Time)
    ensures Fresh(FIRST.db.rows, FilterOf(q, 5), q) == map["job" := Load(0, MINUTELY, 0)]
  {
    FreshHas(FIRST.db.rows, FilterOf(q, 5), q, 0);
  }

  lemma FirstIsInit()
    ensures Init(FIRST)
  {
    assert RowOk(MINUTELY);
  }

  lemma FirstBuilds()
    ensures Gets(FIRST, [Access(0, true)] + [Step.Refresh(0, FilterOf(0, 5))] + [Compare(true)], BUILDING, 0, 0)
  {
    hide Keep, Fresh, Gets, RowOk;
    FirstIsInit();
    FreshMinutely(0);
    GetsNowhere(FIRST, 0);
    GetsNext(FIRST, [], FIRST, 0, 0, Access(0, true));
    var w := Next(FIRST, Access(0, true));
    assert [] + [Access(0, true)] == [Access(0, true)];
    var s := Step.Refresh(0, FilterOf(0, 5));
    MergeNone(w.beat, Fresh(FIRST.db.rows, FilterOf(0, 5), 0));
    GetsNext(FIRST, [Access(0, true)], w, 0, 0, s);
    var r := Next(w, s);
    GetsNext(FIRST, [Access(0, true)] + [s], r, 0, 0, Compare(true));
    assert Next(r, Compare(true)) == BUILDING;
  }

  /** The access that copies the schedule, between the comparison and the rebuild, is the one that reloads. */
  lemma BuildingReloads(a: Time) returns (w: World)
    requires a >= SYNC_MAX_INTERVAL
    ensures Gets(BUILDING, [Access(a, true)] + [Step.Refresh(a, FilterOf(a, 5))], w, 0, 0)
    ensures w.rebuilding && w.beat.heapInvalidated && Idle(w) && !w.beat.initialRead && w.clock == a
    ensures w.beat.schedule == map["job" := Load(0, MINUTELY, 0)]
  {
    hide Keep, Fresh, Gets, RowOk;
    FirstIsInit();
    FreshMinutely(a);
    GetsNowhere(BUILDING, 0);
    GetsNext(BUILDING, [], BUILDING, 0, 0, Access(a, true));
    var v := Next(BUILDING, Access(a, true));
    assert [] + [Access(a, true)] == [Access(a, true)];
    var s := Step.Refresh(a, FilterOf(a, 5));
    MergeNone(v.beat, Fresh(FIRST.db.rows, FilterOf(a, 5), a));
    GetsNext(BUILDING, [Access(a, true)], v, 0, 0, s);
    w := Next(v, s);
  }

  lemma TwiceFrom(before: seq<Step>, v: World, a: Time) returns (steps: seq<Step>, w: World)
    requires Gets(FIRST, before, v, 0, 0)
    requires v.rebuilding && v.beat.heapInvalidated && Idle(v) && !v.beat.initialRead && v.clock == a
    requires v.beat.schedule == map["job" := Load(0, MINUTELY, 0)] && a >= SYNC_MAX_INTERVAL
    ensures Run(FIRST, steps) && (forall i :: 0 <= i < |steps| ==> Alone(steps[i]))
    ensures End(FIRST, steps) == w
    ensures "job" in w.beat.schedule && w.beat.schedule["job"].model.row.lastRunAt == Some(a)
    ensures w.beat.schedule["job"].model.row.config.interval == Some(Ref(0, 60 * SECOND))
    ensures Legal(w, Check(0, a + SECOND, DUE)) && Dispatches(w, Check(0, a + SECOND, DUE), "job")
  {
    hide Legal, Next, Run, End, Runs, Judge, Dispatches;
    var order := ["job"];
    assert Listing(order, v.beat.schedule.Keys);
    DispatchedTwice(v, order, 0, 60 * SECOND, a, a + SECOND, DUE);
    var rest := [Populate(order), Check(0, a, DUE), Compare(true), Populate(order)];
    w := End(v, rest);
    RunsTogether(FIRST, before, rest, 0);
    steps := before + rest;
  }

  /** Beat alone, from the start: a reload falls into the first rebuild, and the task for every minute is
      dispatched at `a` and again a second later. */
  lemma TwiceInASecond(a: Time) returns (steps: seq<Step>, w: World)
    requires a >= SYNC_MAX_INTERVAL
    ensures Init(FIRST) && Run(FIRST, steps) && (forall i :: 0 <= i < |steps| ==> Alone(steps[i]))
    ensures End(FIRST, steps) == w
    ensures "job" in w.beat.schedule && w.beat.schedule["job"].model.row.lastRunAt == Some(a)
    ensures w.beat.schedule["job"].model.row.config.interval == Some(Ref(0, 60 * SECOND))
    ensures Legal(w, Check(0, a + SECOND, DUE)) && Dispatches(w, Check(0, a + SECOND, DUE), "job")
  {
    FirstIsInit();
    FirstBuilds();
    var first := [Access(0, true)] + [Step.Refresh(0, FilterOf(0, 5))] + [Compare(true)];
    var v := BuildingReloads(a);
    var again := [Access(a, true)] + [Step.Refresh(a, FilterOf(a, 5))];
    GetsOn(FIRST, first, BUILDING, 0, 0, again, v, 0);
    steps, w := TwiceFrom(first + again, v, a);
  }
}
