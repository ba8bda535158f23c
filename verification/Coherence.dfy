/** Cache coherence and bounded staleness. */
module Coherence {
  import opened Base
  import opened Models
  import opened Entries
  import opened Candidates
  import opened Beats
  import opened Machine

  predicate SameConfig(a: Row, b: Row) {
    a.config == b.config && a.enabled == b.enabled
  }

  /** The schedule holds exactly the rows that the filter keeps, with their current configuration; a task
      that beat itself disabled may still be there, disabled on both sides. */
  ghost predicate Matches(rows: map<Pk, Row>, f: Filter, schedule: map<string, Slot>) {
    && (forall k :: k in rows && Keep(f, rows[k]) ==> Holds(schedule, rows[k].config.name, k))
    && (forall n :: n in schedule ==> SlotMatches(rows, f, schedule[n].model))
  }

  predicate Holds(schedule: map<string, Slot>, n: string, k: Pk) {
    n in schedule && schedule[n].model.pk == k
  }

  ghost predicate SlotMatches(rows: map<Pk, Row>, f: Filter, m: Model) {
    && m.pk in rows
    && SameConfig(m.row, rows[m.pk])
    && (m.row.enabled ==> Keep(f, rows[m.pk]))
  }

  ghost predicate Match(w: World) {
    w.seen.Some? && Matches(w.db.rows, w.seen.value.filter, w.beat.schedule)
  }

  /** There is a reason to come: a writer still owes its final bump, or the stored timestamp is newer than the one
      last read. */
  predicate Owed(w: World) {
    w.writing > 0 || Newer(w.db.lastUpdate, w.beat.lastTimestamp)
  }

  /** Outside an update, either the cache matches, and the row that a save under way has read is as it was read,
      or there is a reason to come. */
  ghost predicate Coherent(w: World) {
    w.updating.None? && w.synced ==> Owed(w) || (Match(w) && FetchCurrent(w))
  }

  ghost predicate FetchCurrent(w: World) {
    w.fetched.Some? && w.fetched.value.name in w.beat.schedule ==>
      var k := w.beat.schedule[w.fetched.value.name].model.pk;
      k in w.db.rows && SameConfig(w.fetched.value.row, w.db.rows[k])
  }

  lemma FreshMatches(b: Beat, rows: map<Pk, Row>, f: Filter, now: Time)
    requires UniqueNames(rows)
    ensures Matches(rows, f, Merge(b, Fresh(rows, f, now)))
  {
    var schedule := Merge(b, Fresh(rows, f, now));
    forall k | k in rows && Keep(f, rows[k])
      ensures Holds(schedule, rows[k].config.name, k)
    {
      FreshHas(rows, f, now, k);
    }
    forall n | n in schedule
      ensures SlotMatches(rows, f, schedule[n].model)
    {
      var k := FreshFrom(rows, f, now, n);
    }
  }

  /** Whatever a verdict does to a matching slot and its row, it does to both. */
  lemma EffectOnMatch(db: Db, m: Model, v: Verdict, now: Time)
    requires DbOk(db) && RowOk(m.row) && EffectOn(db, m, v, now).Ok?
    requires m.pk in db.rows && SameConfig(m.row, db.rows[m.pk])
    ensures var (db', m') := EffectOn(db, m, v, now).value;
            && db'.rows.Keys == db.rows.Keys
            && (forall k :: k in db.rows && k != m.pk ==> db'.rows[k] == db.rows[k])
            && SameConfig(m'.row, db'.rows[m.pk])
            && m'.pk == m.pk && m'.row.config == m.row.config
            && (m'.row.enabled ==> db'.rows[m.pk] == db.rows[m.pk] && m.row.enabled)
            && (db'.rows[m.pk] == db.rows[m.pk] || !db'.rows[m.pk].enabled)
  {
    if v.Expired? {
      SaveExact(db, m.pk, m.row.(enabled := false), true, now);
    } else if v.OneOffDone? {
      PartialSaveExact(db, m.pk, m.row.(enabled := false, totalRunCount := 0), false, now);
    }
  }

  ghost predicate DistinctKeys(schedule: map<string, Slot>) {
    forall i, j :: i in schedule && j in schedule && schedule[i].model.pk == schedule[j].model.pk ==> i == j
  }

  lemma OkDistinct(b: Beat)
    requires BeatOk(b)
    ensures DistinctKeys(b.schedule)
  {
  }

  /** A schedule still matches when one slot and its row changed together. */
  lemma OneSlotChanged(rows: map<Pk, Row>, rows': map<Pk, Row>, f: Filter,
                       schedule: map<string, Slot>, schedule': map<string, Slot>, n: string)
    requires Matches(rows, f, schedule) && n in schedule
    requires DistinctKeys(schedule)
    requires schedule'.Keys == schedule.Keys && rows'.Keys == rows.Keys
    requires forall i :: i in schedule && i != n ==> schedule'[i] == schedule[i]
    requires forall k :: k in rows && k != schedule[n].model.pk ==> rows'[k] == rows[k]
    requires schedule'[n].model.pk == schedule[n].model.pk
    requires var k := schedule[n].model.pk;
             rows'[k].config == rows[k].config && (rows'[k].enabled ==> rows[k].enabled)
    requires SlotMatches(rows', f, schedule'[n].model)
    ensures Matches(rows', f, schedule')
  {
    forall k | k in rows' && Keep(f, rows'[k])
      ensures Holds(schedule', rows'[k].config.name, k)
    {
      assert rows'[k].config == rows[k].config;
      assert Keep(f, rows[k]);
      assert Holds(schedule, rows[k].config.name, k);
    }
    forall i | i in schedule'
      ensures SlotMatches(rows', f, schedule'[i].model)
    {
      assert SlotMatches(rows, f, schedule[i].model);
    }
  }

  lemma DispatchKeepsMatch(w: World, s: Step)
    requires Inv(w) && Legal(w, s) && Asks(w, s) && Match(w) && Dispatches(w, s, AskedName(w, s))
    ensures Match(Next(w, s))
  {
    hide Judge, RowsOk, DbOk, RowOk, Keep, Next, Legal, Inv, DistinctKeys, BeatOk;
    var n := AskedName(w, s);
    AskDispatches(w, s);
    InvModel(w, n);
    OkDistinct(w.beat);
    assert SlotMatches(w.db.rows, w.seen.value.filter, w.beat.schedule[n].model);
    OneSlotChanged(w.db.rows, w.db.rows, w.seen.value.filter, w.beat.schedule, Next(w, s).beat.schedule, n);
  }

  lemma VerdictKeepsMatch(w: World, s: Step)
    requires Inv(w) && Legal(w, s) && Asks(w, s) && Match(w) && !Dispatches(w, s, AskedName(w, s))
    ensures Match(Next(w, s))
  {
    hide Judge, RowsOk, DbOk, RowOk, Keep, Next, Legal, EffectOn, Inv, DistinctKeys, BeatOk;
    var n, f, w' := AskedName(w, s), w.seen.value.filter, Next(w, s);
    AskDoesNotDispatch(w, s);
    InvModel(w, n);
    assert SlotMatches(w.db.rows, f, w.beat.schedule[n].model);
    EffectOnMatch(w.db, w.beat.schedule[n].model, VerdictOf(w, s), s.t);
    OkDistinct(w.beat);
    OneSlotChanged(w.db.rows, w'.db.rows, f, w.beat.schedule, w'.beat.schedule, n);
  }

  /** Writing run data into the row of a scheduled name keeps the match. */
  lemma RunDataWritten(rows: map<Pk, Row>, rows': map<Pk, Row>, f: Filter, schedule: map<string, Slot>, n: string)
    requires Matches(rows, f, schedule) && DistinctKeys(schedule) && n in schedule
    requires rows'.Keys == rows.Keys && schedule[n].model.pk in rows
    requires forall k :: k in rows && k != schedule[n].model.pk ==> rows'[k] == rows[k]
    requires SameConfig(rows'[schedule[n].model.pk], rows[schedule[n].model.pk])
    ensures Matches(rows', f, schedule)
  {
    hide Keep, DistinctKeys;
    var k := schedule[n].model.pk;
    assert SlotMatches(rows, f, schedule[n].model);
    KeepLooksAtConfig(f, rows'[k], rows[k]);
    OneSlotChanged(rows, rows', f, schedule, schedule, n);
  }

  lemma ShownAsItIs(w: World, k: Pk)
    requires Inv(w) && k in w.db.rows
    ensures Joined(w.db.schedules, w.db.rows[k].config) == w.db.rows[k].config
  {
    hide Joined, Known;
  }

  lemma StoreKeepsMatch(w: World, s: Step)
    requires Inv(w) && Legal(w, s) && s.Store? && Match(w) && FetchCurrent(w)
    ensures Match(Next(w, s))
  {
    hide Matches, RowOk, RowsOk, DbOk, BeatOk, Legal, Next, Inv, DistinctKeys;
    StoreChanges(w, s);
    StoreExact(w, s);
    var n, w' := w.fetched.value.name, Next(w, s);
    ShownAsItIs(w, w.beat.schedule[n].model.pk);
    InvModel(w, n);
    OkDistinct(w.beat);
    assert w'.db.rows.Keys == w.db.rows.Keys;
    RunDataWritten(w.db.rows, w'.db.rows, w.seen.value.filter, w.beat.schedule, n);
  }

  lemma KeepLooksAtConfig(f: Filter, a: Row, b: Row)
    requires SameConfig(a, b)
    ensures Keep(f, a) <==> Keep(f, b)
  {
  }

  /** Beat's own writes pay no debt: only the next poll does. */
  lemma StoreKeepsOwed(w: World, s: Step)
    requires Inv(w) && Legal(w, s) && s.Store?
    ensures var w' := Next(w, s);
            && w'.synced == w.synced && w'.updating == w.updating && w'.fetched.None?
            && (Owed(w) ==> Owed(w'))
  {
    hide RowOk, RowsOk, DbOk, Legal, Next, Inv;
    StoreExact(w, s);
    StoreChanges(w, s);
    InvClock(w);
  }

  lemma AskKeepsOwed(w: World, s: Step)
    requires Inv(w) && Legal(w, s) && Asks(w, s)
    ensures var w' := Next(w, s);
            && w'.synced == w.synced && w'.updating == w.updating && w'.fetched.None?
            && (Owed(w) ==> Owed(w'))
  {
    hide Inv, Legal, Next, Judge, EffectOn, RowsOk, DbOk, RowOk;
    AskChangesOne(w, s);
    if Dispatches(w, s, AskedName(w, s)) {
      AskDispatches(w, s);
    } else {
      var n := AskedName(w, s);
      InvModel(w, n);
      AskDoesNotDispatch(w, s);
      EffectKeepsRows(w.db, w.beat.schedule[n].model, VerdictOf(w, s), s.t);
      InvClock(w);
    }
  }

  lemma InvClock(w: World)
    requires Inv(w)
    ensures w.db.lastUpdate.Some? ==> w.db.lastUpdate.value <= w.clock
  {
  }

  lemma AskKeepsCoherent(w: World, s: Step)
    requires Inv(w) && Legal(w, s) && Asks(w, s) && Coherent(w)
    ensures Coherent(Next(w, s))
  {
    hide Match, Inv, Legal, Next, Dispatches;
    AskKeepsOwed(w, s);
    if Match(w) {
      if Dispatches(w, s, AskedName(w, s)) { DispatchKeepsMatch(w, s); } else { VerdictKeepsMatch(w, s); }
    }
  }

  lemma StoreKeepsCoherent(w: World, s: Step)
    requires Inv(w) && Legal(w, s) && s.Store? && Coherent(w)
    ensures Coherent(Next(w, s))
  {
    hide Match, Inv, Legal, Next, FetchCurrent;
    StoreKeepsOwed(w, s);
    NoFetchIsCurrent(Next(w, s));
    if Match(w) && FetchCurrent(w) {
      StoreKeepsMatch(w, s);
    }
  }

  lemma NoFetchIsCurrent(w: World)
    requires w.fetched.None?
    ensures FetchCurrent(w)
  {
  }

  lemma RefreshMakesCoherent(w: World, s: Step)
    requires Inv(w) && Legal(w, s) && s.Refresh?
    ensures Coherent(Next(w, s))
  {
    hide Merge, Fresh, Matches, Legal, Next, BeatOk, RowOk, TimesOk, PhaseOk;
    RefreshedSchedule(w, s);
    FreshMatches(w.beat, w.db.rows, s.filter, s.q);
  }

  lemma WriterKeepsCoherent(w: World, s: Step)
    requires Inv(w) && Legal(w, s) && (s.Write? || s.Finish? || s.Bump?) && Coherent(w)
    ensures Coherent(Next(w, s))
  {
    hide RowsOk, Consistent, BeatOk, Matches;
  }

  lemma AccessKeepsCoherent(w: World, s: Step)
    requires Inv(w) && Legal(w, s) && s.Access? && Coherent(w)
    ensures Coherent(Next(w, s))
  {
    hide RowsOk, Consistent, BeatOk, Matches;
  }

  lemma OtherStepKeepsCoherent(w: World, s: Step)
    requires Inv(w) && Legal(w, s) && Coherent(w)
    requires s.Fetch? || s.GiveUp? || s.Install? || s.Compare? || s.Populate?
    ensures Coherent(Next(w, s))
  {
    hide RowsOk, Consistent, BeatOk, Matches;
  }

  lemma NextKeepsCoherent(w: World, s: Step)
    requires Inv(w) && Legal(w, s) && Coherent(w)
    ensures Coherent(Next(w, s))
  {
    AsksOrNot(w, s);
    hide Inv, Legal, Next, Coherent, Asks;
    match s
    case Refresh(_, _) => RefreshMakesCoherent(w, s);
    case Store(_) => StoreKeepsCoherent(w, s);
    case Peek(_, _, _) => AskKeepsCoherent(w, s);
    case Check(_, _, _) => AskKeepsCoherent(w, s);
    case Access(_, _) => AccessKeepsCoherent(w, s);
    case Fetch(_) => OtherStepKeepsCoherent(w, s);
    case GiveUp => OtherStepKeepsCoherent(w, s);
    case Install(_) => OtherStepKeepsCoherent(w, s);
    case Compare(_) => OtherStepKeepsCoherent(w, s);
    case Populate(_) => OtherStepKeepsCoherent(w, s);
    case _ => WriterKeepsCoherent(w, s);
  }

  lemma {:induction false} RunKeepsCoherent(w: World, steps: seq<Step>)
    requires Inv(w) && Coherent(w) && Run(w, steps)
    ensures Coherent(End(w, steps))
    decreases |steps|
  {
    if steps != [] {
      NextKeepsInv(w, steps[0]);
      NextKeepsCoherent(w, steps[0]);
      RunKeepsCoherent(Next(w, steps[0]), steps[1..]);
    }
  }

  /** Cache coherence, over every run from the start with every interleaving of other writers: once the
      timestamp was known at some reload, whenever beat is not in the middle of an update, no writer owes a
      bump and the stored timestamp is not newer than the one last read, the cache matches the database. */
  lemma CacheCoherence(w: World, steps: seq<Step>)
    requires Init(w) && Run(w, steps)
    ensures var e := End(w, steps);
            e.synced && e.updating.None? && e.writing == 0 && !Newer(e.db.lastUpdate, e.beat.lastTimestamp) ==>
              Match(e)
  {
    InitInv(w);
    RunKeepsCoherent(w, steps);
  }

  /******* Why the bump must come after the write *******/

  /** An access that finds a newer timestamp decides to reload. */
  lemma AccessFindsBump(w: World, a: Time)
    requires Legal(w, Access(a, false)) && !w.beat.initialRead && Newer(w.db.lastUpdate, w.beat.lastTimestamp)
    ensures Next(w, Access(a, false)) ==
            w.(beat := w.beat.(lastTimestamp := w.db.lastUpdate, lastFullSync := a),
               updating := Some(false), lastAccess := a, clock := a)
  {
  }

  /** A bump is picked up by the next poll and reload; after that the stored timestamp is the one read. */
  lemma BumpIsPickedUp(w: World, t: Time, q: Time, f: Filter) returns (steps: seq<Step>, e: World)
    requires Inv(w) && Idle(w) && w.synced
    requires w.clock < t <= q && f.cutoff == q + SYNC_MAX_INTERVAL
    ensures steps == [Bump(t), Access(t, false), Step.Refresh(q, f)]
    ensures Run(w, steps) && End(w, steps) == e && Inv(e)
    ensures Idle(e) && e.db == Db(w.db.rows, w.db.schedules, Some(t)) && e.beat.lastTimestamp == Some(t)
    ensures e.seen == Some(Seen(w.db.rows, f, q)) && e.synced
    ensures e.beat.schedule == Merge(w.beat, Fresh(w.db.rows, f, q))
  {
    hide RowOk, BeatOk, Fresh, Merge, Run, End;
    var w1 := w.(db := w.db.(lastUpdate := Some(t)), clock := t);
    NextKeepsInv(w, Bump(t));
    AccessFindsBump(w1, t);
    var w2 := Next(w1, Access(t, false));
    NextKeepsInv(w1, Access(t, false));
    e := Next(w2, Step.Refresh(q, f));
    NextKeepsInv(w2, Step.Refresh(q, f));
    SameMerge(w, w2, f, q);
    ThreeSteps(w, w1, w2, Bump(t), Access(t, false), Step.Refresh(q, f));
    steps := [Bump(t), Access(t, false), Step.Refresh(q, f)];
  }

  lemma SameMerge(w: World, w': World, f: Filter, q: Time)
    requires UniqueNames(w.db.rows) && w'.db.rows == w.db.rows
    requires w'.beat.schedule == w.beat.schedule && w'.beat.dirty == w.beat.dirty
    ensures Merge(w'.beat, Fresh(w'.db.rows, f, q)) == Merge(w.beat, Fresh(w.db.rows, f, q))
  {
  }

  lemma ThreeSteps(w: World, w1: World, w2: World, s0: Step, s1: Step, s2: Step)
    requires Legal(w, s0) && w1 == Next(w, s0)
    requires Legal(w1, s1) && w2 == Next(w1, s1)
    requires Legal(w2, s2)
    ensures Run(w, [s0, s1, s2]) && End(w, [s0, s1, s2]) == Next(w2, s2)
  {
    hide Legal, Next;
    RunCons(w2, s2, []);
    RunCons(w1, s1, [s2] + []);
    RunCons(w, s0, [s1] + ([s2] + []));
    assert [s0] + ([s1] + ([s2] + [])) == [s0, s1, s2];
  }

  /** A writer that only bumps before it writes, as a pre_save signal would: from any synced state, beat
      reloads on the bump, the writer then adds a row, the stored timestamp is the one beat has read, and
      the cache misses the row. */
  lemma BumpBeforeWriteIsNotEnough(w: World, t: Time, q: Time, f: Filter, rows: map<Pk, Row>,
                                 schedules: Schedules, k: Pk)
      returns (steps: seq<Step>, e: World)
    requires Inv(w) && Idle(w) && w.synced
    requires w.clock < t <= q && f.cutoff == q + SYNC_MAX_INTERVAL
    requires DbOk(Db(rows, schedules, Some(t))) && k in rows && k !in w.db.rows && Keep(f, rows[k])
    ensures steps == [Bump(t), Access(t, false), Step.Refresh(q, f)]
    ensures Run(w, steps) && Legal(End(w, steps), Write(rows, schedules)) && e == Next(End(w, steps), Write(rows, schedules))
    ensures e.updating.None? && !Newer(e.db.lastUpdate, e.beat.lastTimestamp)
    ensures !Match(e)
  {
    var e0;
    steps, e0 := BumpIsPickedUp(w, t, q, f);
    e := Next(e0, Write(rows, schedules));
    FreshMatches(w.beat, w.db.rows, f, q);
    var n := rows[k].config.name;
    assert n in e.beat.schedule ==> SlotMatches(w.db.rows, f, e.beat.schedule[n].model);
    assert !Holds(e.beat.schedule, n, k);
  }

  /******* Bounded staleness *******/

  /** Every row that the last reload kept is in the schedule, and nothing else, unless `update_from_dict` has put
      its entries there since. */
  ghost predicate SeenLoaded(w: World) {
    w.seen.Some? ==>
      var x := w.seen.value;
      && UniqueNames(x.rows)
      && (forall k :: k in x.rows && Keep(x.filter, x.rows[k]) ==> Holds(w.beat.schedule, x.rows[k].config.name, k))
      && (!w.extra ==> forall n :: n in w.beat.schedule ==> FromSeen(x, n, w.beat.schedule[n].model.pk))
  }

  predicate FromSeen(x: Seen, n: string, k: Pk) {
    k in x.rows && x.rows[k].config.name == n && Keep(x.filter, x.rows[k])
  }

  lemma SameKeysKeepSeenLoaded(w: World, w': World)
    requires SeenLoaded(w) && w'.seen == w.seen && (w'.extra || w'.beat.schedule.Keys == w.beat.schedule.Keys)
    requires w.extra ==> w'.extra
    requires forall n :: n in w.beat.schedule ==>
               n in w'.beat.schedule && w'.beat.schedule[n].model.pk == w.beat.schedule[n].model.pk
    ensures SeenLoaded(w')
  {
    hide Keep;
    if w.seen.Some? {
      var x := w.seen.value;
      forall k | k in x.rows && Keep(x.filter, x.rows[k])
        ensures Holds(w'.beat.schedule, x.rows[k].config.name, k)
      {
        assert Holds(w.beat.schedule, x.rows[k].config.name, k);
      }
    }
  }

  lemma FreshSeenLoaded(b: Beat, rows: map<Pk, Row>, f: Filter, now: Time, w: World)
    requires UniqueNames(rows) && w.seen == Some(Seen(rows, f, now))
    requires w.beat.schedule == Merge(b, Fresh(rows, f, now))
    ensures SeenLoaded(w)
  {
    forall k | k in rows && Keep(f, rows[k])
      ensures Holds(w.beat.schedule, rows[k].config.name, k)
    {
      FreshHas(rows, f, now, k);
    }
    forall n | n in w.beat.schedule
      ensures FromSeen(w.seen.value, n, w.beat.schedule[n].model.pk)
    {
      var k := FreshFrom(rows, f, now, n);
    }
  }

  lemma InstallKeepsSeenLoaded(w: World, s: Step)
    requires Legal(w, s) && s.Install? && SeenLoaded(w)
    ensures SeenLoaded(Next(w, s))
  {
    hide SeenLoaded;
    forall n | n in w.beat.schedule
      ensures n in Next(w, s).beat.schedule
      ensures Next(w, s).beat.schedule[n].model.pk == w.beat.schedule[n].model.pk
    {
      if n in s.entries {
        assert s.entries[n].model.pk == w.beat.schedule[n].model.pk;
      }
    }
    SameKeysKeepSeenLoaded(w, Next(w, s));
  }

  lemma RefreshIsSeenLoaded(w: World, s: Step)
    requires Inv(w) && Legal(w, s) && s.Refresh?
    ensures SeenLoaded(Next(w, s))
  {
    hide SeenLoaded, Fresh, Merge, BeatOk, RowOk;
    FreshSeenLoaded(w.beat, w.db.rows, s.filter, s.q, Next(w, s));
  }

  lemma PopulateKeepsSeenLoaded(w: World, s: Step)
    requires Legal(w, s) && s.Populate? && SeenLoaded(w)
    ensures SeenLoaded(Next(w, s))
  {
    hide SeenLoaded;
    SameKeysKeepSeenLoaded(w, Next(w, s));
  }

  lemma NextKeepsSeenLoaded(w: World, s: Step)
    requires Inv(w) && Legal(w, s) && SeenLoaded(w)
    ensures SeenLoaded(Next(w, s))
  {
    AsksOrNot(w, s);
    hide SeenLoaded, Inv, Legal, Next, Asks;
    if s.Refresh? {
      RefreshIsSeenLoaded(w, s);
    } else if s.Populate? {
      PopulateKeepsSeenLoaded(w, s);
    } else if s.Peek? || s.Check? {
      AskChangesOne(w, s);
      SameKeysKeepSeenLoaded(w, Next(w, s));
    } else if s.Install? {
      InstallKeepsSeenLoaded(w, s);
    } else {
      ScheduleStays(w, s);
      SameKeysKeepSeenLoaded(w, Next(w, s));
    }
  }

  lemma {:induction false} RunKeepsSeenLoaded(w: World, steps: seq<Step>)
    requires Inv(w) && SeenLoaded(w) && Run(w, steps)
    ensures SeenLoaded(End(w, steps))
    decreases |steps|
  {
    if steps != [] {
      NextKeepsInv(w, steps[0]);
      NextKeepsSeenLoaded(w, steps[0]);
      RunKeepsSeenLoaded(Next(w, steps[0]), steps[1..]);
    }
  }

  /** After every completed access, the last reload read its rows less than 300 seconds before the access
      began or later, and the schedule is exactly what that reload kept, plus what `update_from_dict` has put there
      since. */
  lemma BoundedStaleness(w: World, steps: seq<Step>)
    requires Init(w) && Run(w, steps)
    ensures var e := End(w, steps);
            !e.beat.initialRead && e.updating.None? ==>
              && e.lastAccess - e.beat.lastFullSync < SYNC_MAX_INTERVAL
              && e.seen.Some? && e.seen.value.at > e.lastAccess - SYNC_MAX_INTERVAL
              && SeenLoaded(e)
  {
    InitInv(w);
    RunKeepsInv(w, steps);
    RunKeepsSeenLoaded(w, steps);
  }

  /** Nobody changes the configuration of row `k` during the run. */
  ghost predicate Steady(w: World, steps: seq<Step>, k: Pk, r: Row)
    requires Run(w, steps)
    decreases |steps|
  {
    && k in w.db.rows && SameConfig(w.db.rows[k], r)
    && (steps == [] || Steady(Next(w, steps[0]), steps[1..], k, r))
  }

  /** The configuration `r` was in the table whenever a reload after `since` read it. */
  ghost predicate ReadSince(w: World, since: Time, k: Pk, r: Row) {
    w.seen.Some? && w.seen.value.at > since ==> k in w.seen.value.rows && SameConfig(w.seen.value.rows[k], r)
  }

  lemma {:induction false} SteadyIsRead(w: World, steps: seq<Step>, since: Time, k: Pk, r: Row)
    requires Run(w, steps) && Steady(w, steps, k, r) && ReadSince(w, since, k, r)
    ensures ReadSince(End(w, steps), since, k, r)
    decreases |steps|
  {
    if steps != [] {
      assert k in w.db.rows && SameConfig(w.db.rows[k], r);
      assert ReadSince(Next(w, steps[0]), since, k, r);
      SteadyIsRead(Next(w, steps[0]), steps[1..], since, k, r);
    }
  }

  /** A row that stays as it is is read again within 300 seconds plus the gap between accesses, whether or
      not anybody bumped the timestamp: at the end of the first completed access that began 300 seconds
      later, it is in the schedule if the filter keeps it, and only then if nothing was installed since. */
  lemma ReReadWithoutBump(w: World, steps: seq<Step>, k: Pk, r: Row)
    requires Inv(w) && SeenLoaded(w) && Run(w, steps) && Steady(w, steps, k, r)
    ensures var e := End(w, steps);
            !e.beat.initialRead && e.updating.None? && e.lastAccess >= w.clock + SYNC_MAX_INTERVAL ==>
              && e.seen.Some? && e.seen.value.at > w.clock
              && (Keep(e.seen.value.filter, r) ==> Holds(e.beat.schedule, r.config.name, k))
              && (!e.extra ==> (Keep(e.seen.value.filter, r) <==> Holds(e.beat.schedule, r.config.name, k)))
  {
    RunKeepsInv(w, steps);
    RunKeepsSeenLoaded(w, steps);
    SteadyIsRead(w, steps, w.clock, k, r);
    var e := End(w, steps);
    if !e.beat.initialRead && e.updating.None? && e.lastAccess >= w.clock + SYNC_MAX_INTERVAL {
      assert SameConfig(e.seen.value.rows[k], r);
      assert Keep(e.seen.value.filter, r) <==> Keep(e.seen.value.filter, e.seen.value.rows[k]);
    }
  }

  /******* The filter hides nothing that is due *******/

  /** At every completed access, every enabled clocked task whose time has come, and whose configuration the
      last reload saw, is in the schedule: the look-ahead and the reload interval are the same 300 seconds. */
  lemma ClockedNeverHidden(w: World, steps: seq<Step>, k: Pk)
    requires Init(w) && Run(w, steps)
    ensures var e := End(w, steps);
            && !e.beat.initialRead && e.updating.None?
            && k in e.db.rows && e.seen.Some? && k in e.seen.value.rows
            && SameConfig(e.seen.value.rows[k], e.db.rows[k])
            && e.db.rows[k].enabled && e.db.rows[k].config.clocked.Some?
            && e.db.rows[k].config.clocked.value.content <= e.lastAccess ==>
              Holds(e.beat.schedule, e.db.rows[k].config.name, k)
  {
    BoundedStaleness(w, steps);
    InitInv(w);
    RunKeepsInv(w, steps);
    var e := End(w, steps);
    if k in e.db.rows {
      assert RowOk(e.db.rows[k]);
    }
  }

  /** At every completed access, every enabled crontab task that has come up, before the last reload or since, is
      in the schedule: overdue by `back` at that reload, with an offset whose error leaves that much room. */
  lemma CrontabNeverHidden(w: World, steps: seq<Step>, k: Pk, server: Zone, target: Zone, firing: Time, back: nat)
    requires Init(w) && Run(w, steps)
    requires var e := End(w, steps);
             && !e.beat.initialRead && e.updating.None?
             && k in e.db.rows && e.seen.Some? && k in e.seen.value.rows
             && SameConfig(e.seen.value.rows[k], e.db.rows[k])
             && e.seen.value.at - back <= firing <= e.lastAccess
    requires var e, r := End(w, steps), End(w, steps).db.rows[k];
             && r.enabled && r.config.crontab.Some?
             && BuiltAt(e.seen.value.filter, e.seen.value.at, server, r.config.crontab.value.content.zone, target)
             && (PlainHour(r.config.crontab.value.content.hour) ==>
                   && LocalHour(firing, target.at(firing)) == HourValue(r.config.crontab.value.content.hour)
                   && HourValue(r.config.crontab.value.content.hour) + ZoneOffset(server, target) + 24 >= 0
                   && Safe(OffsetError(server, target, e.seen.value.at, firing), back))
    ensures Holds(End(w, steps).beat.schedule, End(w, steps).db.rows[k].config.name, k)
  {
    BoundedStaleness(w, steps);
    InitInv(w);
    RunKeepsInv(w, steps);
    var e := End(w, steps);
    assert RowOk(e.db.rows[k]);
    var error := OffsetError(server, target, e.seen.value.at, firing);
    if Safe(error, back) {
      SafeExactly(error, back);
      assert InReach(firing - e.seen.value.at, error);
    }
    FilterKeepsDueCrontab(e.seen.value.rows[k], e.seen.value.filter, server, target, e.seen.value.at, firing);
  }

  /** With a server on UTC nothing is asked of the error: at every completed access, every enabled crontab task that
      came up at most a quarter of an hour before the last reload, or since, is in the schedule. */
  lemma CrontabNeverHiddenOnUtc(w: World, steps: seq<Step>, k: Pk, target: Zone, firing: Time)
    requires Init(w) && Run(w, steps)
    requires target.fixed % (HOUR / 4) == 0 && -24 * HOUR <= target.fixed <= 24 * HOUR
    requires -HOUR <= target.at(firing) - target.fixed <= HOUR
    requires var e := End(w, steps);
             && !e.beat.initialRead && e.updating.None?
             && k in e.db.rows && e.seen.Some? && k in e.seen.value.rows
             && SameConfig(e.seen.value.rows[k], e.db.rows[k])
             && e.seen.value.at - HOUR / 4 <= firing <= e.lastAccess
    requires var e, r := End(w, steps), End(w, steps).db.rows[k];
             && r.enabled && r.config.crontab.Some?
             && BuiltAt(e.seen.value.filter, e.seen.value.at, UTC, r.config.crontab.value.content.zone, target)
             && (PlainHour(r.config.crontab.value.content.hour) ==>
                   LocalHour(firing, target.at(firing)) == HourValue(r.config.crontab.value.content.hour))
    ensures Holds(End(w, steps).beat.schedule, End(w, steps).db.rows[k].config.name, k)
  {
    UtcServerIsSafe(target, End(w, steps).seen.value.at, firing);
    CrontabNeverHidden(w, steps, k, UTC, target, firing, HOUR / 4);
  }
}
