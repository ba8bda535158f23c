/** Beat and everybody else who writes to the database, as one state machine.

    External writers change rows and bump the change row in separate steps. An access to the `schedule`
    property is the poll and the decision (`Access`), any number of row saves, and the reload (`Refresh`).
    A row save is a read (`Fetch`) and a write (`Store`), or a read and an error (`GiveUp`). External steps may
    come between any two of these, and `sync` may stop anywhere. `Install` is the end of `update_from_dict`.
    Celery's tick is the environment: it compares schedules, rebuilds the heap, and checks one item at a time. */
module Machine {
  import opened Base
  import opened Models
  import opened Entries
  import opened Candidates
  import opened Beats

  /** What the last reload read. */
  datatype Seen = Seen(rows: map<Pk, Row>, filter: Filter, at: Time)

  /** The row that the save of a name has read and is about to write. */
  datatype Fetched = Fetched(name: string, row: Row)

  /** `writing` counts external writers between their row write and their final bump; `updating` is set
      between the decision to reload and the reload, and tells whether it is the first one; `rebuilding` is
      set between a failed comparison of schedules and the rebuild of the heap. The last five fields are history
      that no code reads: what the last reload read, whether the change timestamp was known at some reload since
      the last `Install`, whether anything was installed since the last reload, and two times. */
  datatype World = World(
    db: Db,
    writing: nat,
    beat: Beat,
    updating: Option<bool>,
    rebuilding: bool,
    fetched: Option<Fetched>,
    seen: Option<Seen>,
    synced: bool,
    extra: bool,
    lastAccess: Time,
    clock: Time)

  datatype Step =
    | Write(rows: map<Pk, Row>, schedules: Schedules) // external: any change of any task or schedule rows
    | Finish(t: Time)                                // external: the bump after a write
    | Bump(t: Time)                                  // external: a bump on its own, as before a write
    | Access(a: Time, pollFails: bool)
    | Fetch(name: string)
    | Store(t: Time)
    | GiveUp                                         // the save of a name raised after its read
    | Refresh(q: Time, filter: Filter)
    | Install(entries: map<string, Slot>)            // `self.schedule.update(s)`
    | Compare(same: bool)
    | Populate(order: seq<string>)
    | Peek(name: string, t: Time, answer: Answer)    // is_due on an entry of the schedule
    | Check(i: nat, t: Time, answer: Answer)         // is_due on a heap item, and reserve if it is due

  /** A step of beat's own, after setup. */
  predicate Alone(s: Step) {
    !s.Write? && !s.Finish? && !s.Bump? && !s.Install?
  }

  predicate Newer(a: Option<Time>, b: Option<Time>) {
    a.Some? && b.Some? && a.value > b.value
  }

  function PollOf(w: World, fails: bool): Poll {
    if fails then Failed else Answered(w.db.lastUpdate)
  }

  /** The name that a checking step asks, and the entry it asks. */
  predicate Asks(w: World, s: Step) {
    || (s.Peek? && s.name in w.beat.schedule)
    || (s.Check? && w.beat.heap.Some? && s.i < |w.beat.heap.value| && w.beat.heap.value[s.i].name in w.beat.schedule)
  }

  function AskedName(w: World, s: Step): (n: string)
    requires Asks(w, s)
    ensures n in w.beat.schedule
  {
    if s.Peek? then s.name else w.beat.heap.value[s.i].name
  }

  function VerdictOf(w: World, s: Step): Verdict
    requires Asks(w, s)
  {
    var n := AskedName(w, s);
    var own := if s.Peek? then w.beat.schedule[n].own else w.beat.heap.value[s.i].own;
    Judge(w.beat.schedule[n].model, own, s.t, s.answer)
  }

  /** The name that a step dispatches, if any. */
  predicate Dispatches(w: World, s: Step, n: string) {
    s.Check? && Asks(w, s) && AskedName(w, s) == n && Fires(VerdictOf(w, s))
  }

  /** Beat is neither in an access nor in a save. */
  predicate Idle(w: World) {
    w.updating.None? && w.fetched.None?
  }

  /** What the save under way would write. */
  function Writing(w: World, t: Time): Result<Db, SaveError>
    requires w.fetched.Some? && w.fetched.value.name in w.beat.schedule
  {
    var m := w.beat.schedule[w.fetched.value.name].model;
    FullSave(w.db, m.pk, WithRunData(w.fetched.value.row, m.row.lastRunAt, m.row.totalRunCount), m.noChanges, t)
  }

  /** Entries as `from_entry` returns them: built from rows as they were at some earlier moment, which need not be
      what the table holds now. No row was renamed, nor deleted and created again, since the last reload. */
  ghost predicate Installable(schedule: map<string, Slot>, entries: map<string, Slot>) {
    && (forall n :: n in entries ==> NewEntry(entries[n], n))
    && (forall n, m :: n in entries && m in entries && entries[n].model.pk == entries[m].model.pk ==> n == m)
    && (forall n, m :: n in entries && m in schedule ==> (entries[n].model.pk == schedule[m].model.pk <==> n == m))
  }

  predicate NewEntry(s: Slot, n: string) {
    && s.model.row.config.name == n && RowOk(s.model.row) && s.model.row.enabled
    && s.model.row.lastRunAt.Some? && !s.model.noChanges && InStep(s)
  }

  /** What `from_entry` returns for an enabled task is loaded from the row as it was saved, and can be installed, now
      or later, whatever happens to the row. */
  lemma FromEntryIsNew(db: Db, pk: Pk, n: string, e: ConfEntry, key: nat, whole: bool, now: Time)
    requires DbOk(db) && Denotes(db.rows, pk, n) && KeyFits(db.schedules, e.spec, key)
    requires FromEntry(db, pk, n, e, key, whole, now).Ok?
    requires FromEntry(db, pk, n, e, key, whole, now).value.rows[pk].enabled
    ensures var row := FromEntry(db, pk, n, e, key, whole, now).value.rows[pk];
            && row == Stored(EntryRow(db.rows, pk, n, e, key), now)
            && NewEntry(Load(pk, row, now), n)
  {
    FromEntrySaves(db, pk, n, e, key, now);
    hide FullSave, Known, Joined;
    assert RowOk(FromEntry(db, pk, n, e, key, true, now).value.rows[pk]);
  }

  /** No heap yet, or one that a reload has emptied. */
  predicate HeapEmpty(b: Beat) {
    b.heap.None? || (b.heap == Some([]) && b.heapInvalidated)
  }

  ghost predicate Legal(w: World, s: Step) {
    match s
    case Write(rows, schedules) => DbOk(Db(rows, schedules, w.db.lastUpdate))
    case Finish(t) => w.writing > 0 && t >= w.clock && (w.db.lastUpdate.Some? ==> t > w.db.lastUpdate.value)
    case Bump(t) => t >= w.clock && (w.db.lastUpdate.Some? ==> t > w.db.lastUpdate.value)
    case Access(a, _) => Idle(w) && a >= w.clock
    case Fetch(n) =>
      w.fetched.None? && n in w.beat.dirty && n in w.beat.schedule && w.beat.schedule[n].model.pk in w.db.rows
    case Store(t) =>
      t >= w.clock && w.fetched.Some? && w.fetched.value.name in w.beat.schedule && Writing(w, t).Ok?
    case GiveUp => w.fetched.Some?
    case Refresh(q, f) =>
      && w.updating.Some? && w.fetched.None? && q >= w.clock
      && f.cutoff == q + SYNC_MAX_INTERVAL && DbOk(w.db)
    case Install(entries) =>
      && Idle(w) && !w.beat.initialRead && !w.rebuilding
      && HeapEmpty(w.beat) && Installable(w.beat.schedule, entries)
    case Compare(_) => Idle(w) && !w.beat.initialRead && !w.rebuilding
    case Populate(order) => Idle(w) && w.rebuilding && Listing(order, w.beat.schedule.Keys)
    case _ =>
      && Asks(w, s) && s.t >= w.clock && Idle(w) && (s.Check? ==> !w.rebuilding)
      && !VerdictOf(w, s).Broken?
      && EffectOn(w.db, w.beat.schedule[AskedName(w, s)].model, VerdictOf(w, s), s.t).Ok?
  }

  /** A check: the verdict's effect on the model and the database, then the dispatch if the entry is due. */
  function Ask(w: World, s: Step): World
    requires Asks(w, s)
    requires EffectOn(w.db, w.beat.schedule[AskedName(w, s)].model, VerdictOf(w, s), s.t).Ok?
  {
    var n, v := AskedName(w, s), VerdictOf(w, s);
    var (db, m) := EffectOn(w.db, w.beat.schedule[n].model, v, s.t).value;
    var b := WithModel(w.beat, n, m);
    if s.Check? && Fires(v) then
      w.(db := db, beat := Dispatched(b, n, s.i, s.t), clock := s.t)
    else
      w.(db := db, beat := b, clock := s.t)
  }

  ghost function Next(w: World, s: Step): World
    requires Legal(w, s)
  {
    match s
    case Write(rows, schedules) => w.(db := Db(rows, schedules, w.db.lastUpdate), writing := w.writing + 1)
    case Finish(t) => w.(db := w.db.(lastUpdate := Some(t)), writing := w.writing - 1, clock := t)
    case Bump(t) => w.(db := w.db.(lastUpdate := Some(t)), clock := t)
    case Access(a, fails) =>
      var p := PollOf(w, fails);
      var d := Decide(w.beat, a, p);
      w.(beat := AfterDecision(w.beat, a, p),
         updating := if d.Reload? then Some(d.initial) else None,
         lastAccess := a, clock := a)
    case Fetch(n) => w.(fetched := Some(Fetched(n, w.db.rows[w.beat.schedule[n].model.pk])))
    case Store(t) =>
      w.(db := Writing(w, t).value,
         beat := w.beat.(dirty := w.beat.dirty - {w.fetched.value.name}), fetched := None, clock := t)
    case GiveUp => w.(fetched := None)
    case Refresh(q, f) =>
      w.(beat := Beats.Refresh(w.beat, w.db.rows, f, q, w.updating.value),
         updating := None, seen := Some(Seen(w.db.rows, f, q)),
         synced := w.synced || w.beat.lastTimestamp.Some?, extra := false, clock := q)
    case Install(entries) =>
      w.(beat := w.beat.(schedule := w.beat.schedule + entries), synced := false, extra := true)
    case Compare(same) =>
      if w.beat.heap.None? then w.(rebuilding := true)
      else if w.beat.heapInvalidated then w.(beat := w.beat.(heapInvalidated := false), rebuilding := true)
      else w.(rebuilding := !same)
    case Populate(order) =>
      w.(beat := w.beat.(heap := Some(ItemsOf(w.beat.schedule, order))), rebuilding := false)
    case _ => Ask(w, s)
  }

  /******* Runs *******/

  ghost predicate Run(w: World, steps: seq<Step>)
    decreases |steps|
  {
    steps == [] || (Legal(w, steps[0]) && Run(Next(w, steps[0]), steps[1..]))
  }

  ghost function End(w: World, steps: seq<Step>): World
    requires Run(w, steps)
    decreases |steps|
  {
    if steps == [] then w else End(Next(w, steps[0]), steps[1..])
  }

  /** A run can be put together from its first step and the rest. */
  lemma RunCons(w: World, s: Step, rest: seq<Step>)
    requires Legal(w, s) && Run(Next(w, s), rest)
    ensures Run(w, [s] + rest) && End(w, [s] + rest) == End(Next(w, s), rest)
  {
    assert ([s] + rest)[1..] == rest;
  }

  lemma {:induction false} RunSnoc(w: World, steps: seq<Step>, s: Step)
    requires Run(w, steps) && Legal(End(w, steps), s)
    ensures Run(w, steps + [s]) && End(w, steps + [s]) == Next(End(w, steps), s)
    decreases |steps|
  {
    if steps == [] {
      RunCons(w, s, []);
      assert steps + [s] == [s] + [];
    } else {
      RunSnoc(Next(w, steps[0]), steps[1..], s);
      assert (steps + [s])[1..] == steps[1..] + [s];
    }
  }

  /** Beat before its first read, in front of any well-formed table. */
  ghost predicate Init(w: World) {
    && DbOk(w.db) && w.writing == 0
    && w.beat == Beat(map[], None, false, {}, None, true, 0)
    && Idle(w) && !w.rebuilding && w.seen.None? && !w.synced && !w.extra
    && (w.db.lastUpdate.Some? ==> w.db.lastUpdate.value <= w.clock)
    && w.lastAccess <= w.clock
  }

  /******* The base invariant *******/

  ghost predicate TimesOk(w: World) {
    && (w.db.lastUpdate.Some? ==> w.db.lastUpdate.value <= w.clock)
    && (w.beat.lastTimestamp.Some? ==>
          w.db.lastUpdate.Some? && w.beat.lastTimestamp.value <= w.db.lastUpdate.value)
    && w.lastAccess <= w.clock
    && (w.seen.Some? ==> w.seen.value.at <= w.clock)
    && (w.seen.Some? ==> w.seen.value.filter.cutoff == w.seen.value.at + SYNC_MAX_INTERVAL)
    && (w.updating.Some? ==> w.beat.lastFullSync == w.lastAccess)
    && (!w.beat.initialRead && w.updating.None? ==>
          && w.lastAccess - w.beat.lastFullSync < SYNC_MAX_INTERVAL
          && w.seen.Some? && w.beat.lastFullSync <= w.seen.value.at)
  }

  ghost predicate PhaseOk(w: World) {
    && (w.beat.initialRead ==> w.updating.None? && w.beat.heap.None? && !w.rebuilding && !w.beat.heapInvalidated)
    && (w.updating == Some(true) ==> w.beat.heap.None? && !w.rebuilding)
    && (w.fetched.Some? ==>
          && w.fetched.value.name in w.beat.schedule && w.fetched.value.name in w.beat.dirty
          && RowOk(w.fetched.value.row))
    && (w.synced ==> w.beat.lastTimestamp.Some?)
    && (w.synced ==> !w.beat.initialRead && w.updating != Some(true))
  }

  ghost predicate Inv(w: World) {
    DbOk(w.db) && BeatOk(w.beat) && TimesOk(w) && PhaseOk(w)
  }

  lemma EffectKeepsRows(db: Db, m: Model, v: Verdict, now: Time)
    requires DbOk(db) && RowOk(m.row) && EffectOn(db, m, v, now).Ok?
    ensures var (db', m') := EffectOn(db, m, v, now).value;
            && DbOk(db') && db'.schedules == db.schedules && RowOk(m'.row)
            && m'.pk == m.pk && m'.row.config == m.row.config
            && (forall k :: k in db.rows ==> k in db'.rows)
            && (forall k :: k in db'.rows ==> k in db.rows || k == m.pk)
            && (forall k :: k in db.rows && k != m.pk ==> db'.rows[k] == db.rows[k])
            && (db'.lastUpdate == db.lastUpdate || db'.lastUpdate == Some(now))
  {
    if v.Expired? {
      SaveExact(db, m.pk, m.row.(enabled := false), true, now);
    } else if v.OneOffDone? {
      PartialSaveExact(db, m.pk, m.row.(enabled := false, totalRunCount := 0), false, now);
    }
  }

  /** Where an entry of a reloaded schedule comes from. */
  lemma RefreshedFrom(w: World, s: Step, n: string) returns (k: Pk)
    requires Legal(w, s) && s.Refresh? && n in Next(w, s).beat.schedule
    ensures k in w.db.rows && Keep(s.filter, w.db.rows[k]) && w.db.rows[k].config.name == n
    ensures var loaded := Load(k, w.db.rows[k], s.q);
            Next(w, s).beat.schedule[n] ==
              if n in w.beat.dirty && n in w.beat.schedule then Carry(w.beat.schedule[n], loaded) else loaded
    ensures Next(w, s).beat.dirty == w.beat.dirty && Next(w, s).db == w.db
  {
    RefreshedSchedule(w, s);
    k := MergedFrom(w.beat, w.db.rows, s.filter, s.q, n);
  }

  lemma RefreshedSchedule(w: World, s: Step)
    requires Legal(w, s) && s.Refresh?
    ensures Next(w, s).beat.schedule == Merge(w.beat, Fresh(w.db.rows, s.filter, s.q))
    ensures Next(w, s).beat.dirty == w.beat.dirty && Next(w, s).db == w.db
    ensures Next(w, s).seen == Some(Seen(w.db.rows, s.filter, s.q)) && Idle(Next(w, s)) && !Next(w, s).extra
  {
    hide RowOk, Merge, Fresh;
  }

  lemma RefreshedHas(w: World, s: Step, k: Pk)
    requires Legal(w, s) && s.Refresh? && k in w.db.rows && Keep(s.filter, w.db.rows[k])
    ensures w.db.rows[k].config.name in Next(w, s).beat.schedule
  {
    FreshHas(w.db.rows, s.filter, s.q, k);
  }

  lemma RefreshedKey(w: World, s: Step, n: string, k: Pk)
    requires Legal(w, s) && s.Refresh? && n in Next(w, s).beat.schedule
    requires k in w.db.rows && w.db.rows[k].config.name == n
    ensures Next(w, s).beat.schedule[n].model.pk == k
  {
    var j := RefreshedFrom(w, s, n);
  }

  /** A check that dispatches changes one model, the dirty set and one heap item; the database stays. */
  lemma AskDispatches(w: World, s: Step)
    requires Legal(w, s) && Asks(w, s) && Dispatches(w, s, AskedName(w, s))
    ensures Idle(w) && s.t >= w.clock
    ensures var n := AskedName(w, s);
            var m := Advance(w.beat.schedule[n].model, s.t);
            Next(w, s) == w.(beat := w.beat.(
                               schedule := w.beat.schedule[n := w.beat.schedule[n].(model := m)],
                               dirty := w.beat.dirty + {n},
                               heap := Some(w.beat.heap.value[s.i := Item(n, RunData(m))])),
                             clock := s.t)
  {
    var n := AskedName(w, s);
    assert WithModel(w.beat, n, w.beat.schedule[n].model) == w.beat;
  }

  /** Any other check changes at most the database and one model, as its verdict says. */
  lemma AskDoesNotDispatch(w: World, s: Step)
    requires Legal(w, s) && Asks(w, s) && !Dispatches(w, s, AskedName(w, s))
    ensures Idle(w) && s.t >= w.clock
    ensures EffectOn(w.db, w.beat.schedule[AskedName(w, s)].model, VerdictOf(w, s), s.t).Ok?
    ensures var n := AskedName(w, s);
            var (db, m) := EffectOn(w.db, w.beat.schedule[n].model, VerdictOf(w, s), s.t).value;
            Next(w, s) == w.(db := db, beat := WithModel(w.beat, n, m), clock := s.t)
  {
  }

  /** A check of `n` changes at most the model under `n`, the own data of heap items, and the dirty set. */
  ghost predicate OnlyAsked(b: Beat, b': Beat, n: string)
    requires n in b.schedule
  {
    && b'.schedule.Keys == b.schedule.Keys
    && (forall i :: i in b.schedule && i != n ==> b'.schedule[i] == b.schedule[i])
    && b'.schedule[n].own == b.schedule[n].own
    && b'.schedule[n].model.pk == b.schedule[n].model.pk
    && b'.schedule[n].model.row.config == b.schedule[n].model.row.config
    && (b'.heap.Some? <==> b.heap.Some?)
    && (b.heap.Some? ==> |b'.heap.value| == |b.heap.value|
                         && forall i :: 0 <= i < |b.heap.value| ==> b'.heap.value[i].name == b.heap.value[i].name)
    && b'.heapInvalidated == b.heapInvalidated && b'.lastTimestamp == b.lastTimestamp
    && b'.initialRead == b.initialRead && b'.lastFullSync == b.lastFullSync
  }

  lemma DispatchChangesOne(w: World, s: Step)
    requires Legal(w, s) && Asks(w, s) && Dispatches(w, s, AskedName(w, s))
    ensures OnlyAsked(w.beat, Next(w, s).beat, AskedName(w, s))
    ensures Next(w, s) == w.(beat := Next(w, s).beat, clock := s.t)
  {
    hide Legal, Next, Judge;
    AskDispatches(w, s);
  }

  lemma VerdictChangesOne(w: World, s: Step)
    requires Inv(w) && Legal(w, s) && Asks(w, s) && !Dispatches(w, s, AskedName(w, s))
    ensures OnlyAsked(w.beat, Next(w, s).beat, AskedName(w, s))
    ensures Next(w, s) == w.(db := Next(w, s).db, beat := Next(w, s).beat, clock := s.t)
  {
    hide Legal, Next, Judge, Inv, EffectOn, RowOk;
    AskDoesNotDispatch(w, s);
    var n := AskedName(w, s);
    InvModel(w, n);
    EffectKeepsModel(w.db, w.beat.schedule[n].model, VerdictOf(w, s), s.t);
  }

  lemma InvModel(w: World, n: string)
    requires Inv(w) && n in w.beat.schedule
    ensures RowOk(w.beat.schedule[n].model.row) && w.beat.schedule[n].model.row.config.name == n
    ensures DbOk(w.db) && BeatOk(w.beat)
  {
  }

  lemma AskChangesOne(w: World, s: Step)
    requires Inv(w) && Legal(w, s) && Asks(w, s)
    ensures OnlyAsked(w.beat, Next(w, s).beat, AskedName(w, s))
    ensures Next(w, s) == w.(db := Next(w, s).db, beat := Next(w, s).beat, clock := s.t)
  {
    if Dispatches(w, s, AskedName(w, s)) { DispatchChangesOne(w, s); } else { VerdictChangesOne(w, s); }
  }

  /** A legal check does not break off. */
  lemma AskGoesThrough(w: World, s: Step)
    requires Inv(w) && Legal(w, s) && Asks(w, s)
    ensures !VerdictOf(w, s).Broken? && Idle(w)
    ensures EffectOn(w.db, w.beat.schedule[AskedName(w, s)].model, VerdictOf(w, s), s.t).Ok?
    ensures var p := EffectOn(w.db, w.beat.schedule[AskedName(w, s)].model, VerdictOf(w, s), s.t).value;
            var b := WithModel(w.beat, AskedName(w, s), p.1);
            && Next(w, s).db == p.0
            && Next(w, s).beat == (if s.Check? && Fires(VerdictOf(w, s))
                                   then Dispatched(b, AskedName(w, s), s.i, s.t) else b)
            && Next(w, s) == w.(db := Next(w, s).db, beat := Next(w, s).beat, clock := s.t)
  {
    hide Judge, EffectOn, Inv;
  }

  lemma AskLeavesRest(w: World, s: Step)
    requires Inv(w) && Legal(w, s) && Asks(w, s)
    ensures Idle(w) && Next(w, s) == w.(db := Next(w, s).db, beat := Next(w, s).beat, clock := s.t)
  {
    hide Inv, Legal, Next, Judge, EffectOn, Fires, Dispatched, WithModel;
    AskGoesThrough(w, s);
  }

  lemma AskKeepsInv(w: World, s: Step)
    requires Inv(w) && Legal(w, s) && Asks(w, s)
    ensures Inv(Next(w, s))
  {
    var n, v := AskedName(w, s), VerdictOf(w, s);
    EffectKeepsRows(w.db, w.beat.schedule[n].model, v, s.t);
    var m := EffectOn(w.db, w.beat.schedule[n].model, v, s.t).value.1;
    WithModelOk(w.beat, n, m);
    if s.Check? && Fires(v) {
      DispatchOk(WithModel(w.beat, n, m), n, s.i, s.t);
    }
  }

  /** A write of the save loop: the configuration that was read, the run data of the model. */
  lemma StoreExact(w: World, s: Step)
    requires Inv(w) && Legal(w, s) && s.Store?
    ensures var m, read, out := w.beat.schedule[w.fetched.value.name].model, w.fetched.value.row, Next(w, s).db;
            && DbOk(out) && out.schedules == w.db.schedules && out.rows.Keys == w.db.rows.Keys + {m.pk}
            && (forall k :: k in w.db.rows && k != m.pk ==> out.rows[k] == w.db.rows[k])
            && out.rows[m.pk] == Row(Joined(w.db.schedules, read.config), read.enabled,
                                     if read.enabled then m.row.lastRunAt else None,
                                     m.row.totalRunCount, Some(s.t))
            && out.lastUpdate == Changed(w.db.lastUpdate, m.noChanges, s.t)
  {
    var m := w.beat.schedule[w.fetched.value.name].model;
    SaveBetweenReadAndWrite(w.db, m.pk, w.fetched.value.row, m.row.lastRunAt, m.row.totalRunCount, m.noChanges, s.t);
  }

  lemma StoreChanges(w: World, s: Step)
    requires Inv(w) && Legal(w, s) && s.Store?
    ensures w.fetched.Some? && s.t >= w.clock && RowOk(w.fetched.value.row)
    ensures w.fetched.value.name in w.beat.schedule && w.fetched.value.name in w.beat.dirty
    ensures Next(w, s) == w.(db := Next(w, s).db, beat := w.beat.(dirty := w.beat.dirty - {w.fetched.value.name}),
                             fetched := None, clock := s.t)
  {
  }

  lemma StoreWrites(w: World, s: Step)
    requires Inv(w) && Legal(w, s) && s.Store?
    ensures w.fetched.Some? && w.fetched.value.name in w.beat.schedule
    ensures var m, read := w.beat.schedule[w.fetched.value.name].model, w.fetched.value.row;
            FullSave(w.db, m.pk, WithRunData(read, m.row.lastRunAt, m.row.totalRunCount), m.noChanges, s.t)
            == Ok(Next(w, s).db)
  {
    hide FullSave;
  }

  lemma StoreKeepsInv(w: World, s: Step)
    requires Inv(w) && Legal(w, s) && s.Store?
    ensures Inv(Next(w, s))
  {
    hide Legal, Next, RowOk, RowsOk, DbOk, BeatOk;
    StoreChanges(w, s);
    StoreExact(w, s);
    SameSlotsOk(w.beat, Next(w, s).beat);
  }

  lemma InstallChanges(w: World, s: Step)
    requires Legal(w, s) && s.Install?
    ensures Next(w, s) == w.(beat := w.beat.(schedule := w.beat.schedule + s.entries), synced := false, extra := true)
    ensures Idle(w) && !w.beat.initialRead && HeapEmpty(w.beat) && Installable(w.beat.schedule, s.entries)
  {
  }

  lemma InstalledOk(b: Beat, entries: map<string, Slot>)
    requires BeatOk(b) && HeapEmpty(b) && Installable(b.schedule, entries)
    ensures BeatOk(b.(schedule := b.schedule + entries))
  {
    hide RowOk;
    var s := b.schedule + entries;
    forall n, m | n in s && m in s && s[n].model.pk == s[m].model.pk
      ensures n == m
    {
      if n in entries && m !in entries {
        assert (entries[n].model.pk == b.schedule[m].model.pk) <==> n == m;
      } else if m in entries && n !in entries {
        assert (entries[m].model.pk == b.schedule[n].model.pk) <==> m == n;
      }
    }
  }

  lemma InstallKeepsInv(w: World, s: Step)
    requires Inv(w) && Legal(w, s) && s.Install?
    ensures Inv(Next(w, s))
  {
    hide Legal, Next, RowOk, RowsOk, DbOk, BeatOk, Installable;
    InstallChanges(w, s);
    InstalledOk(w.beat, s.entries);
  }

  lemma RefreshKeepsInv(w: World, s: Step)
    requires Inv(w) && Legal(w, s) && s.Refresh?
    ensures Inv(Next(w, s))
  {
    hide BeatOk, RowOk, Beats.Refresh;
    MergeOk(w.beat, w.db.rows, s.filter, s.q, w.updating.value);
    RefreshKeepsRest(w.beat, w.db.rows, s.filter, s.q, w.updating.value);
  }

  lemma AccessIs(w: World, s: Step)
    requires Inv(w) && Legal(w, s) && s.Access?
    ensures Idle(w)
    ensures var p, w' := PollOf(w, s.pollFails), Next(w, s);
            && w'.beat == AfterDecision(w.beat, s.a, p)
            && w'.updating == (if Decide(w.beat, s.a, p).Reload? then Some(Decide(w.beat, s.a, p).initial) else None)
            && w'.db == w.db && w'.rebuilding == w.rebuilding && w'.fetched.None?
  {
    hide Decide, AfterDecision, Inv;
  }

  lemma CompareIs(w: World, s: Step)
    requires Inv(w) && Legal(w, s) && s.Compare?
    ensures Idle(w) && !w.beat.initialRead
    ensures var w' := Next(w, s);
            && w'.beat == (if w.beat.heap.None? then w.beat else w.beat.(heapInvalidated := false))
            && (w.beat.heap.None? ==> w'.rebuilding)
            && (w.beat.heap.Some? ==> w'.rebuilding == (w.beat.heapInvalidated || !s.same))
            && w'.db == w.db && w'.updating.None? && w'.fetched.None?
  {
    hide Inv;
  }

  lemma FetchIs(w: World, s: Step)
    requires Legal(w, s) && s.Fetch?
    ensures w.fetched.None? && s.name in w.beat.schedule && w.beat.schedule[s.name].model.pk in w.db.rows
    ensures Next(w, s) == w.(fetched := Some(Fetched(s.name, w.db.rows[w.beat.schedule[s.name].model.pk])))
  {
  }

  lemma RefreshIs(w: World, s: Step)
    requires Inv(w) && Legal(w, s) && s.Refresh?
    ensures w.updating.Some? && w.fetched.None? && DbOk(w.db) && UniqueNames(w.db.rows)
    ensures !w.beat.initialRead && (w.updating.value ==> w.beat.heap.None?)
    ensures var w' := Next(w, s);
            && w'.beat == Beats.Refresh(w.beat, w.db.rows, s.filter, s.q, w.updating.value)
            && w'.db == w.db && w'.updating.None? && w'.rebuilding == w.rebuilding && w'.fetched.None?
  {
    hide Beats.Refresh, RowOk, BeatOk;
  }

  lemma RefreshKeepsRest(b: Beat, rows: map<Pk, Row>, f: Filter, q: Time, initial: bool)
    requires UniqueNames(rows)
    ensures var b' := Beats.Refresh(b, rows, f, q, initial);
            && b'.initialRead == b.initialRead && b'.lastTimestamp == b.lastTimestamp
            && b'.lastFullSync == b.lastFullSync && b'.dirty == b.dirty
            && (initial ==> b'.heap == b.heap)
  {
  }

  lemma WriterKeepsInv(w: World, s: Step)
    requires Inv(w) && Legal(w, s) && (s.Write? || s.Finish? || s.Bump?)
    ensures Inv(Next(w, s))
  {
    hide BeatOk, RowsOk, Consistent, RowOk;
  }

  lemma AccessKeepsInv(w: World, s: Step)
    requires Inv(w) && Legal(w, s) && s.Access?
    ensures Inv(Next(w, s))
  {
    hide BeatOk, RowsOk, DbOk, RowOk;
    SameSlotsOk(w.beat, Next(w, s).beat);
  }

  lemma FetchKeepsInv(w: World, s: Step)
    requires Inv(w) && Legal(w, s) && (s.Fetch? || s.GiveUp?)
    ensures Inv(Next(w, s))
  {
    assert s.Fetch? ==> RowOk(w.db.rows[w.beat.schedule[s.name].model.pk]);
    hide BeatOk, RowsOk, DbOk, RowOk;
  }

  lemma TickKeepsInv(w: World, s: Step)
    requires Inv(w) && Legal(w, s) && (s.Compare? || s.Populate?)
    ensures Inv(Next(w, s))
  {
    hide BeatOk, RowsOk, DbOk, RowOk, ItemsOf;
    if s.Populate? {
      PopulatedOk(w.beat, s.order);
    } else {
      SameSlotsOk(w.beat, Next(w, s).beat);
    }
  }

  lemma NextKeepsInv(w: World, s: Step)
    requires Inv(w) && Legal(w, s)
    ensures Inv(Next(w, s))
  {
    AsksOrNot(w, s);
    hide Inv, Legal, Next, Asks;
    match s
    case Store(_) => StoreKeepsInv(w, s);
    case Install(_) => InstallKeepsInv(w, s);
    case Refresh(_, _) => RefreshKeepsInv(w, s);
    case Peek(_, _, _) => AskKeepsInv(w, s);
    case Check(_, _, _) => AskKeepsInv(w, s);
    case Access(_, _) => AccessKeepsInv(w, s);
    case Fetch(_) => FetchKeepsInv(w, s);
    case GiveUp => FetchKeepsInv(w, s);
    case Compare(_) => TickKeepsInv(w, s);
    case Populate(_) => TickKeepsInv(w, s);
    case _ => WriterKeepsInv(w, s);
  }

  lemma AsksOrNot(w: World, s: Step)
    requires Legal(w, s)
    ensures Asks(w, s) <==> s.Peek? || s.Check?
  {
  }

  lemma PopulateChanges(w: World, s: Step)
    requires Legal(w, s) && s.Populate?
    ensures Next(w, s) == w.(beat := w.beat.(heap := Next(w, s).beat.heap), rebuilding := false)
    ensures Idle(w) && w.rebuilding && Next(w, s).beat.heap.Some?
  {
    hide ItemsOf, Listing;
  }

  /** Steps other than reloads, installs, rebuilds and checks leave the schedule and the heap alone. */
  lemma ScheduleStays(w: World, s: Step)
    requires Legal(w, s) && !s.Refresh? && !s.Install? && !s.Populate? && !s.Peek? && !s.Check?
    ensures var w' := Next(w, s);
            && w'.beat.schedule == w.beat.schedule && w'.beat.heap == w.beat.heap
            && w'.seen == w.seen && w'.synced == w.synced && w'.extra == w.extra
            && (!s.Store? ==> w'.beat.dirty == w.beat.dirty)
            && (!s.Store? && !s.Write? ==> w'.db.rows == w.db.rows)
            && (!s.Fetch? && !s.Store? && !s.GiveUp? ==> w'.fetched == w.fetched)
            && (!s.Compare? ==> w'.rebuilding == w.rebuilding && w'.beat.heapInvalidated == w.beat.heapInvalidated)
  {
    hide DbOk, RowsOk, FullSave, Decide, Installable, Listing, EffectOn, Judge, Fresh, Merge, Beats.Refresh;
  }

  lemma {:induction false} RunKeepsInv(w: World, steps: seq<Step>)
    requires Inv(w) && Run(w, steps)
    ensures Inv(End(w, steps))
    decreases |steps|
  {
    if steps != [] {
      NextKeepsInv(w, steps[0]);
      RunKeepsInv(Next(w, steps[0]), steps[1..]);
    }
  }

  lemma InitInv(w: World)
    requires Init(w)
    ensures Inv(w)
  {
  }

  /******* sync, as a run *******/

  /** The world after a `sync` that got through `order`. */
  ghost predicate Synced(w: World, e: World, order: seq<string>, t: Time) {
    && (e.clock == w.clock || e.clock == t)
    && e == w.(db := SyncRows(w.db, w.beat, order, t),
               beat := w.beat.(dirty := w.beat.dirty - SyncSaved(w.db, w.beat, order, t)),
               clock := e.clock)
  }

  lemma OneMoreTurn(w: World, e: World, rest: seq<string>, n: string, t: Time)
    requires Synced(w, e, rest, t) && t >= w.clock && w.fetched.None? && n in w.beat.dirty && n !in rest
    ensures n in w.beat.schedule && SaveEntry(e.db, w.beat.schedule[n].model, t).Ok? ==>
              && Legal(e, Fetch(n)) && Legal(Next(e, Fetch(n)), Store(t))
              && Synced(w, Next(Next(e, Fetch(n)), Store(t)), rest + [n], t)
    ensures !(n in w.beat.schedule && SaveEntry(e.db, w.beat.schedule[n].model, t).Ok?) ==>
              Synced(w, e, rest + [n], t)
  {
    hide SyncRows, SyncSaved, FullSave;
    SyncTurn(w.db, w.beat, rest, n, t);
    SyncSavedAmong(w.db, w.beat, rest, t);
  }

  lemma NothingSynced(w: World, t: Time)
    ensures Run(w, []) && Synced(w, End(w, []), [], t)
  {
    assert w.beat.dirty - {} == w.beat.dirty;
  }

  /** What a whole `sync` does, for the names that it got through, is a run of reads and writes of single rows; so
      every result about runs covers it, wherever it stops and whatever comes between. */
  lemma {:induction false} SyncIsARun(w: World, order: seq<string>, t: Time) returns (steps: seq<Step>)
    requires t >= w.clock && w.fetched.None?
    requires forall i, j :: 0 <= i < j < |order| ==> order[i] != order[j]
    requires forall n :: n in order ==> n in w.beat.dirty
    ensures Run(w, steps) && Synced(w, End(w, steps), order, t)
    ensures forall i :: 0 <= i < |steps| ==> steps[i].Store? || (steps[i].Fetch? && steps[i].name in order)
    decreases |order|
  {
    hide Synced, Legal, Next, Run, End, SaveEntry;
    if order == [] {
      NothingSynced(w, t);
      steps := [];
    } else {
      var rest, n := order[..|order| - 1], order[|order| - 1];
      assert order == rest + [n];
      steps := SyncIsARun(w, rest, t);
      var e := End(w, steps);
      OneMoreTurn(w, e, rest, n, t);
      if n in w.beat.schedule && SaveEntry(e.db, w.beat.schedule[n].model, t).Ok? {
        RunSnoc(w, steps, Fetch(n));
        RunSnoc(w, steps + [Fetch(n)], Store(t));
        steps := steps + [Fetch(n)] + [Store(t)];
      }
    }
  }

  /** A sync that nothing stops is a run after which only names without an entry or a row are dirty, and the row of
      every other name that was dirty holds its model's run data. */
  lemma CompleteSyncSaves(w: World, order: seq<string>, t: Time) returns (steps: seq<Step>)
    requires Inv(w) && w.fetched.None? && t >= w.clock && Listing(order, w.beat.dirty)
    ensures Run(w, steps) && forall i :: 0 <= i < |steps| ==> steps[i].Store? || steps[i].Fetch?
    ensures var e := End(w, steps);
            && e.beat == w.beat.(dirty := e.beat.dirty)
            && e.beat.dirty == set n | n in w.beat.dirty && !Savable(w.db, w.beat, n)
            && forall n :: n in w.beat.dirty && Savable(w.db, w.beat, n) ==> RunSaved(e.db, w.beat, n)
  {
    hide Run, End, SyncRows, SyncSaved, DbOk, BeatOk, RunSaved, Savable;
    steps := SyncIsARun(w, order, t);
    SyncOutcome(w.db, w.beat, order, t);
  }

  lemma {:induction false} SyncSavedAmong(db: Db, b: Beat, order: seq<string>, now: Time)
    ensures forall n :: n in SyncSaved(db, b, order, now) ==> n in order
    decreases |order|
  {
    if order != [] {
      SyncSavedAmong(db, b, order[..|order| - 1], now);
    }
  }
}
