/** The object graph: instances, entries, the database and the scheduler, as classes whose methods are proved
    against the functions of `Models`, `Entries` and `Beats`.

    A heap entry and the scheduled entry of the same name share one `PeriodicTask`. `reserve` relies on that:
    it stores nothing in the schedule, and yet `sync` and the reload see the run it counted. `Valid` states
    the sharing, and `View` forgets it: in the view a heap item has no model of its own. */
module Schedulers {
  import opened Base
  import opened Models
  import opened Entries
  import opened Candidates
  import opened Beats

  class Database {
    var rows: map<Pk, Row>
    var schedules: Schedules
    var lastUpdate: Option<Time>

    constructor (rows: map<Pk, Row>, schedules: Schedules, lastUpdate: Option<Time>)
      ensures View() == Db(rows, schedules, lastUpdate)
    {
      this.rows := rows;
      this.schedules := schedules;
      this.lastUpdate := lastUpdate;
    }

    function View(): Db
      reads this
    {
      Db(rows, schedules, lastUpdate)
    }

    /** Other processes act, and leave the tables as `next`. */
    method Become(next: Db)
      modifies this
      ensures View() == next
    {
      rows, schedules, lastUpdate := next.rows, next.schedules, next.lastUpdate;
    }
  }

  /** The instance after a save that raised: validation comes before the new `date_changed`, the table after it. */
  function Refused(r: Row, x: SaveError, now: Time): Row {
    if x == NullHeaders || x == NoScheduleRow || x == NoRow then Stored(r, now) else Prepared(r)
  }

  class PeriodicTask {
    const pk: Pk
    var config: Config
    var enabled: bool
    var lastRunAt: Option<Time>
    var totalRunCount: nat
    var dateChanged: Option<Time>
    var noChanges: bool

    constructor (pk: Pk, r: Row)
      ensures View() == Model(pk, r, false)
    {
      this.pk := pk;
      config := r.config;
      enabled := r.enabled;
      lastRunAt := r.lastRunAt;
      totalRunCount := r.totalRunCount;
      dateChanged := r.dateChanged;
      noChanges := false;
    }

    function RowView(): Row
      reads this
    {
      Row(config, enabled, lastRunAt, totalRunCount, dateChanged)
    }

    function View(): Model
      reads this
    {
      Model(pk, RowView(), noChanges)
    }

    /** The first half of `save`: normalise, clear, and validate. */
    method Prepare(db: Database) returns (e: Option<SaveError>)
      modifies this
      ensures View() == Model(pk, Prepared(old(RowView())), old(noChanges))
      ensures Cleaned(old(RowView()), RowView()) && noChanges == old(noChanges)
      ensures e == Complaint(db.rows, pk, config)
    {
      config := config.(exchange := Blank(config.exchange));
      config := config.(routingKey := Blank(config.routingKey));
      config := config.(queue := Blank(config.queue));
      config := config.(headers := Blank(config.headers));
      if !enabled {
        lastRunAt := None;
      }
      if config.expireSeconds.Some? && config.expires.Some? {
        return Some(BothExpires);
      }
      e := ValidateUnique(db);
    }

    method ValidateUnique(db: Database) returns (e: Option<SaveError>)
      ensures e == UniqueComplaint(db.rows, pk, config)
    {
      if Taken(db.rows, pk, config.name) {
        return Some(NameTaken);
      }
      var selected := Ones(config);
      if selected == 0 {
        return Some(NoSchedule);
      }
      if selected > 1 {
        return Some(ManySchedules);
      }
      if config.clocked.Some? && !config.oneOff {
        return Some(ClockedNotOneOff);
      }
      return None;
    }

    /** `PeriodicTasks.changed`. */
    method Notify(db: Database, now: Time)
      modifies db
      ensures db.View() == old(db.View()).(lastUpdate := Changed(old(db.lastUpdate), noChanges, now))
    {
      if !noChanges {
        db.lastUpdate := Some(now);
      }
    }

    /** `save()`. */
    method Save(db: Database, now: Time) returns (e: Option<SaveError>)
      modifies this, db
      ensures match FullSave(old(db.View()), pk, old(RowView()), old(noChanges), now)
              case Ok(d) => e == None && db.View() == d
                            && View() == Model(pk, Stored(old(RowView()), now), old(noChanges))
              case Err(x) => e == Some(x) && db.View() == old(db.View())
                             && View() == Model(pk, Refused(old(RowView()), x, now), old(noChanges))
    {
      e := Prepare(db);
      if e.Some? {
        return;
      }
      dateChanged := Some(now);
      if config.headers.None? {
        return Some(NullHeaders);
      }
      if !Known(db.schedules, config) {
        return Some(NoScheduleRow);
      }
      db.rows := db.rows[pk := Written(db.schedules, RowView())];
      Notify(db, now);
    }

    /** `save(update_fields=[enabled, total_run_count, last_run_at, date_changed])`. */
    method SaveRunFields(db: Database, now: Time) returns (e: Option<SaveError>)
      modifies this, db
      ensures match PartialSave(old(db.View()), pk, old(RowView()), old(noChanges), now)
              case Ok(d) => e == None && db.View() == d
                            && View() == Model(pk, Stored(old(RowView()), now), old(noChanges))
              case Err(x) => e == Some(x) && db.View() == old(db.View())
                             && View() == Model(pk, Refused(old(RowView()), x, now), old(noChanges))
    {
      e := Prepare(db);
      if e.Some? {
        return;
      }
      dateChanged := Some(now);
      if pk !in db.rows {
        return Some(NoRow);
      }
      db.rows := db.rows[pk := RowView().(config := db.rows[pk].config)];
      Notify(db, now);
    }
  }

  /** The model after the save of a disabling branch raised: disabled all the same. */
  function Undone(m: Model, v: Verdict, x: SaveError, now: Time): Model {
    match v
    case Expired => Model(m.pk, Refused(m.row.(enabled := false), x, now), true)
    case OneOffDone => Model(m.pk, Refused(m.row.(enabled := false, totalRunCount := 0), x, now), false)
    case _ => m
  }

  /** Why a check escapes to the caller: a save failed, or the entry has no last run to compare with. */
  datatype Failure = SaveFailed(error: SaveError) | NoLastRun

  class ModelEntry {
    const name: string
    const model: PeriodicTask
    var lastRunAt: Option<Time>
    var totalRunCount: nat

    /** `__init__`: an entry gives its model a last run if it has none, and copies the run data. */
    constructor (model: PeriodicTask, now: Time)
      modifies model
      ensures this.model == model && name == old(model.config.name)
      ensures model.View() == old(model.View()).(row := old(model.RowView()).(
                                lastRunAt := Some(StartingPoint(old(model.RowView()), now))))
      ensures Copies() == RunData(model.View())
    {
      name := model.config.name;
      this.model := model;
      totalRunCount := model.totalRunCount;
      var last := model.lastRunAt;
      if model.lastRunAt.None? {
        var base := Or(model.dateChanged, now);
        last := Some(if model.config.startTime.Some? then base - THIRTY_YEARS else base);
      }
      lastRunAt := last;
      new;
      model.lastRunAt := last;
    }

    function Copies(): Own
      reads this
    {
      Own(lastRunAt, totalRunCount)
    }

    function View(): Slot
      reads this, model
    {
      Slot(model.View(), Copies())
    }

    /** `_disable`. */
    method Disable(db: Database, now: Time) returns (e: Option<SaveError>)
      modifies model, db
      ensures match FullSave(old(db.View()), model.pk, old(model.RowView()).(enabled := false), true, now)
              case Ok(d) => e == None && db.View() == d && model.View() == Expire(old(model.View()), now)
              case Err(x) => e == Some(x) && db.View() == old(db.View())
                             && model.View() == Undone(old(model.View()), Expired, x, now)
    {
      model.noChanges := true;
      model.enabled := false;
      e := model.Save(db, now);
    }

    /** The one-off branch of `is_due`. */
    method RetireOneOff(db: Database, now: Time) returns (e: Option<SaveError>)
      modifies model, db
      ensures match PartialSave(old(db.View()), model.pk,
                                old(model.RowView()).(enabled := false, totalRunCount := 0), false, now)
              case Ok(d) => e == None && db.View() == d && model.View() == Retire(old(model.View()), now)
              case Err(x) => e == Some(x) && db.View() == old(db.View())
                             && model.View() == Undone(old(model.View()), OneOffDone, x, now)
    {
      model.enabled := false;
      model.totalRunCount := 0;
      model.noChanges := false;
      e := model.SaveRunFields(db, now);
    }

    /** `is_due`. */
    method IsDue(db: Database, now: Time, a: Answer) returns (r: Result<SchedState, Failure>)
      modifies model, db
      ensures var v := Judge(old(model.View()), Copies(), now, a);
              if v.Broken? then r == Err(NoLastRun) && db.View() == old(db.View()) && model.View() == old(model.View())
              else match EffectOn(old(db.View()), old(model.View()), v, now)
                   case Ok(p) => r == Ok(Reply(v)) && db.View() == p.0 && model.View() == p.1
                   case Err(x) => r == Err(SaveFailed(x)) && db.View() == old(db.View())
                                  && model.View() == Undone(old(model.View()), v, x, now)
    {
      if !model.enabled {
        return Ok(SchedState(false, 5 * SECOND));
      }
      if model.config.startTime.Some? && now < model.config.startTime.value {
        var start := DueStart(model.config, model.config.startTime.value, a);
        return Ok(SchedState(false, CeilSeconds(start - now) * SECOND));
      }
      if model.config.expires.Some? && now >= model.config.expires.value {
        var e := Disable(db, now);
        return if e.Some? then Err(SaveFailed(e.value)) else Ok(SchedState(false, NEVER_CHECK));
      }
      if model.config.oneOff && model.enabled && model.totalRunCount > 0 {
        var e := RetireOneOff(db, now);
        return if e.Some? then Err(SaveFailed(e.value)) else Ok(SchedState(false, NEVER_CHECK));
      }
      if lastRunAt.None? {
        return Err(NoLastRun);
      }
      return Ok(Consult(model.config, lastRunAt.value, now, a));
    }

    /** `__next__`: a new entry over the same, advanced model. */
    method Next(now: Time) returns (e: ModelEntry)
      modifies model
      ensures fresh(e) && e.model == model && e.name == model.config.name
      ensures model.View() == Advance(old(model.View()), now)
      ensures e.Copies() == RunData(model.View())
    {
      model.lastRunAt := Some(now);
      model.totalRunCount := model.totalRunCount + 1;
      model.noChanges := true;
      e := new ModelEntry(model, now);
    }

    /** The first half of `save`: a fresh read of the row. */
    method Fetch(db: Database) returns (obj: Option<PeriodicTask>)
      ensures obj.Some? <==> model.pk in db.rows
      ensures obj.Some? ==> fresh(obj.value) && obj.value.View() == Model(model.pk, db.rows[model.pk], false)
    {
      if model.pk !in db.rows {
        return None;
      }
      var o := new PeriodicTask(model.pk, db.rows[model.pk]);
      obj := Some(o);
    }

    /** The second half, whatever happened to the table in between: set the three fields and save the whole row
        that was read. */
    method Store(obj: PeriodicTask, db: Database, now: Time) returns (e: Option<SaveError>)
      requires obj != model && obj.pk == model.pk
      modifies obj, db
      ensures match FullSave(old(db.View()), model.pk,
                             WithRunData(old(obj.RowView()), model.lastRunAt, model.totalRunCount), model.noChanges, now)
              case Ok(d) => e == None && db.View() == d
              case Err(x) => e == Some(x) && db.View() == old(db.View())
    {
      obj.lastRunAt := model.lastRunAt;
      obj.totalRunCount := model.totalRunCount;
      obj.noChanges := model.noChanges;
      e := obj.Save(db, now);
    }

    /** The key of the row of a name, or else the key for a new row. */
    static method KeyFor(db: Database, n: string, newPk: Pk) returns (pk: Pk)
      requires newPk !in db.rows
      ensures UniqueNames(db.rows) ==> Denotes(db.rows, pk, n)
    {
      var keys := set k | k in db.rows && db.rows[k].config.name == n;
      pk := newPk;
      if keys != {} {
        pk :| pk in keys;
      }
      assert forall k :: k in db.rows ==> (db.rows[k].config.name == n <==> k in keys);
    }

    /** `update_or_create` for a known key: the instance that was saved. An update of the item's columns only leaves
        the last run of the row. */
    static method UpdateOrCreate(db: Database, pk: Pk, r: Row, whole: bool, now: Time)
        returns (e: Option<SaveError>, model: PeriodicTask)
      modifies db
      ensures fresh(model)
      ensures match FullSave(old(db.View()), pk, r, false, now)
              case Ok(d) => e == None && model.View() == Model(pk, Stored(r, now), false)
                            && db.View() == (if whole || pk !in old(db.rows) then d
                                             else d.(rows := d.rows[pk := d.rows[pk].(lastRunAt := old(db.rows)[pk].lastRunAt)]))
              case Err(x) => e == Some(x) && db.View() == old(db.View())
    {
      hide Complaint, Known, Stored, Written, HasHeaders;
      var before := db.rows;
      model := new PeriodicTask(pk, r);
      e := model.Save(db, now);
      if e.None? && !whole && pk in before {
        db.rows := db.rows[pk := db.rows[pk].(lastRunAt := before[pk].lastRunAt)];
      }
    }

    /** `from_entry`: save the schedule row, under the key that `from_schedule` found or a new one; update the task row
        of that name, as a whole or only in the item's columns, or create one under the key `newPk`; and return an
        entry over the instance that was saved. */
    static method FromEntry(db: Database, n: string, e: ConfEntry, newPk: Pk, key: nat, whole: bool, now: Time)
        returns (r: Result<ModelEntry, SaveError>, pk: Pk)
      requires newPk !in db.rows && KeyFits(db.schedules, e.spec, key)
      modifies db
      ensures UniqueNames(old(db.rows)) ==> Denotes(old(db.rows), pk, n)
      ensures match Models.FromEntry(old(db.View()), pk, n, e, key, whole, now)
              case Ok(d) => r.Ok? && db.View() == d && fresh(r.value) && fresh(r.value.model)
                            && r.value.name == Stored(EntryRow(old(db.rows), pk, n, e, key), now).config.name
                            && r.value.View() == Load(pk, Stored(EntryRow(old(db.rows), pk, n, e, key), now), now)
              case Err(x) => r == Err(x) && db.View() == WithSchedule(old(db.View()), e.spec, key, now)
    {
      hide FullSave, WithRow, Unpack, Stored, Denotes, UniqueNames, EntryRow;
      pk := KeyFor(db, n, newPk);
      var row := EntryRow(db.rows, pk, n, e, key);
      db.schedules := WithRow(db.schedules, e.spec, key);
      db.lastUpdate := Some(now);
      var error, model := UpdateOrCreate(db, pk, row, whole, now);
      if error.Some? {
        return Err(error.value), pk;
      }
      var entry := new ModelEntry(model, now);
      r := Ok(entry);
    }

    /** `save`, with nobody else in between. */
    method Save(db: Database, now: Time) returns (e: Option<SaveError>)
      modifies db
      ensures match SaveEntry(old(db.View()), model.View(), now)
              case Ok(d) => e == None && db.View() == d
              case Err(x) => e == Some(x) && db.View() == old(db.View())
    {
      var obj := Fetch(db);
      if obj.None? {
        return Some(NoRow);
      }
      e := Store(obj.value, db, now);
    }
  }

  /** The slots of a schedule. */
  ghost function Slots(s: map<string, ModelEntry>): map<string, Slot>
    reads s.Values, set e | e in s.Values :: e.model
  {
    map n | n in s :: s[n].View()
  }

  ghost function Items(h: seq<ModelEntry>): (items: seq<Item>)
    reads h
    ensures |items| == |h|
    ensures forall i :: 0 <= i < |h| ==> items[i] == Item(h[i].name, h[i].Copies())
  {
    seq(|h|, i requires 0 <= i < |h| reads h => Item(h[i].name, h[i].Copies()))
  }

  lemma ItemsUpdate(h: seq<ModelEntry>, i: nat, e: ModelEntry)
    requires i < |h|
    ensures Items(h[i := e]) == Items(h)[i := Item(e.name, e.Copies())]
  {
  }

  lemma SlotsKeys(s: map<string, ModelEntry>)
    ensures Slots(s).Keys == s.Keys
  {
  }

  lemma SlotsAt(s: map<string, ModelEntry>)
    ensures Slots(s).Keys == s.Keys && forall n :: n in s ==> Slots(s)[n] == s[n].View()
  {
  }

  lemma SlotsFrom(s: map<string, ModelEntry>, slots: map<string, Slot>)
    requires slots.Keys == s.Keys && forall n :: n in s ==> s[n].View() == slots[n]
    ensures Slots(s) == slots
  {
  }

  /** An entry is filed under its own name. */
  ghost predicate Filed(s: map<string, ModelEntry>) {
    forall n :: n in s ==> s[n].name == n
  }

  /** Entries and instances that did not exist before. */
  twostate predicate NewEntries(new s: map<string, ModelEntry>) {
    forall n :: n in s ==> fresh(s[n]) && fresh(s[n].model)
  }

  /** The loop of `sync` got through `order`, and nothing else ended it than the end of the dirty set, a database error
      at a dirty name, or what it raised. */
  ghost predicate Stopped(dirty: set<string>, order: seq<string>, fault: set<string>, raised: Option<SaveError>) {
    && (forall i, j :: 0 <= i < j < |order| ==> order[i] != order[j])
    && (forall n :: n in order ==> n in dirty && n !in fault)
    && (raised.Some? || (forall n :: n in dirty ==> n in order)
        || exists n :: n in dirty && n in fault && n !in order)
  }

  /** After `order`, the save of some entry raises `x`, which `sync` does not skip. */
  ghost predicate Raises(db: Db, b: Beat, order: seq<string>, now: Time, x: SaveError) {
    && x != NoRow && x != NoScheduleRow
    && exists n :: n in b.schedule && SaveEntry(SyncRows(db, b, order, now), b.schedule[n].model, now) == Err(x)
  }

  /** From well-formed tables no save raises. */
  lemma NothingRaises(db: Db, b: Beat, order: seq<string>, now: Time, x: SaveError)
    requires DbOk(db) && BeatOk(b)
    requires forall i, j :: 0 <= i < j < |order| ==> order[i] != order[j]
    ensures !Raises(db, b, order, now, x)
  {
    var mid := SyncRows(db, b, order, now);
    SyncKeepsDbOk(db, b, order, now);
    forall n | n in b.schedule ensures SaveEntry(mid, b.schedule[n].model, now) != Err(x) || x == NoRow {
      SaveEntryExact(mid, b.schedule[n].model, now);
    }
  }

  class DatabaseScheduler {
    const db: Database
    var schedule: map<string, ModelEntry>
    var heap: Option<seq<ModelEntry>>
    var heapInvalidated: bool
    var dirty: set<string>
    var lastTimestamp: Option<Time>
    var initialRead: bool
    var lastFullSync: Time

    constructor (db: Database)
      ensures this.db == db && Valid() && View() == Beat(map[], None, false, {}, None, true, 0)
      ensures Entries() == {}
    {
      this.db := db;
      schedule, heap, heapInvalidated := map[], None, false;
      dirty, lastTimestamp, initialRead, lastFullSync := {}, None, true, 0;
    }

    /** Every entry that the scheduler can reach, in the schedule or in the heap. */
    ghost function Entries(): set<ModelEntry>
      reads this
    {
      schedule.Values + (if heap.Some? then set e | e in heap.value else {})
    }

    ghost function Instances(): set<PeriodicTask>
      reads this
    {
      set e | e in Entries() :: e.model
    }

    ghost function View(): Beat
      reads this, Entries(), Instances()
    {
      Beat(Slots(schedule), if heap.Some? then Some(Items(heap.value)) else None, heapInvalidated, dirty,
           lastTimestamp, initialRead, lastFullSync)
    }

    /** A heap entry shares the model of the scheduled entry of its name. */
    ghost predicate Live(e: ModelEntry)
      reads this
    {
      e.name in schedule && e.model == schedule[e.name].model
    }

    ghost predicate Valid()
      reads this, Entries(), Instances()
    {
      && Filed(schedule)
      && (heap.Some? ==> forall e :: e in heap.value ==> Live(e))
      && (initialRead ==> heap.None?)
      && BeatOk(View())
    }

    /** `schedule_changed`. */
    method ScheduleChanged(fails: bool) returns (changed: bool)
      requires Valid()
      modifies this`lastTimestamp
      ensures Valid()
      ensures var p := if fails then Failed else Answered(db.lastUpdate);
              && changed == Beats.ScheduleChanged(old(lastTimestamp), p)
              && View() == old(View()).(lastTimestamp := TimestampAfter(old(lastTimestamp), p))
    {
      hide BeatOk, Slots, Items;
      if fails {
        return false;
      }
      var last, ts := lastTimestamp, db.lastUpdate;
      ghost var before := View();
      lastTimestamp := ts;
      assert View() == before.(lastTimestamp := ts);
      SameSlotsOk(before, View());
      changed := ts.Some? && ts.value > Or(last, ts.value);
    }

    /** `reserve`: nothing is stored in the schedule, and yet the scheduled slot's model has advanced. */
    method Reserve(entry: ModelEntry, now: Time) returns (e: ModelEntry)
      requires Valid() && Live(entry)
      modifies entry.model, this`dirty
      ensures Valid() && View() == Beats.Reserve(old(View()), entry.name, now)
      ensures fresh(e) && e.name == entry.name && e.model == entry.model
      ensures e.Copies() == RunData(View().schedule[entry.name].model)
    {
      hide BeatOk;
      ghost var n, before := entry.name, View();
      OnlyThisModel(n);
      ReserveOk(before, n, now);
      e := entry.Next(now);
      dirty := dirty + {e.name};
      OneModelChanged(n);
      assert View() == Beats.Reserve(before, n, now);
    }

    /** `self._schedule[name].save()` under the exceptions that `sync` skips: no entry, or no row. */
    method SaveName(n: string, now: Time) returns (saved: bool, raised: Option<SaveError>)
      modifies db
      ensures if n in schedule then
                match SaveEntry(old(db.View()), schedule[n].model.View(), now)
                case Ok(d) => saved && raised == None && db.View() == d
                case Err(x) => !saved && raised == (if x == NoRow || x == NoScheduleRow then None else Some(x))
                               && db.View() == old(db.View())
              else !saved && raised == None && db.View() == old(db.View())
    {
      if n !in schedule {
        return false, None;
      }
      var e := schedule[n].Save(db, now);
      if e.None? {
        return true, None;
      }
      return false, if e.value == NoRow || e.value == NoScheduleRow then None else e;
    }

    /** The view `b` shows the scheduled models as they are. */
    ghost predicate Shows(b: Beat)
      reads this, schedule.Values, set e | e in schedule.Values :: e.model
    {
      && b.schedule.Keys == schedule.Keys
      && forall n :: n in schedule ==> b.schedule[n].model == schedule[n].model.View()
    }

    lemma ShownModel(b: Beat, n: string)
      requires Shows(b)
      ensures n in b.schedule <==> n in schedule
      ensures n in schedule ==> b.schedule[n].model == schedule[n].model.View()
    {
    }

    lemma ShowsItself()
      ensures Shows(View())
    {
    }

    /** The loop of `sync`. A database error, for a name in `fault`, ends it; a validation error escapes. The
        order is that of a Python set: any. */
    method SaveDirty(fault: set<string>, now: Time, ghost b: Beat)
        returns (success: set<string>, raised: Option<SaveError>, ghost order: seq<string>)
      requires Shows(b)
      modifies db
      ensures db.View() == SyncRows(old(db.View()), b, order, now)
      ensures success == SyncSaved(old(db.View()), b, order, now)
      ensures Stopped(dirty, order, fault, raised)
      ensures raised.Some? ==> Raises(old(db.View()), b, order, now, raised.value)
    {
      hide SyncRows, SyncSaved, SaveEntry, Shows;
      ghost var db0 := db.View();
      SyncNone(db0, b, now);
      var todo := dirty;
      success, raised, order := {}, None, [];
      while todo != {}
        invariant Shows(b)
        invariant todo <= dirty && (forall n :: n in order ==> n in dirty && n !in todo && n !in fault)
        invariant forall n :: n in dirty ==> n in order || n in todo
        invariant forall i, j :: 0 <= i < j < |order| ==> order[i] != order[j]
        invariant db.View() == SyncRows(db0, b, order, now)
        invariant success == SyncSaved(db0, b, order, now)
        decreases |todo|
      {
        var n :| n in todo;
        todo := todo - {n};
        if n in fault {
          break;
        }
        SyncTurn(db0, b, order, n, now);
        ShownModel(b, n);
        var saved, e := SaveName(n, now);
        if saved {
          success := success + {n};
        }
        if e.Some? {
          raised := e;
          break;
        }
        order := order + [n];
      }
    }

    /** `sync`: however the loop ends, the names that were saved leave the dirty set. From well-formed tables nothing
        is raised. */
    method Sync(fault: set<string>, now: Time) returns (raised: Option<SaveError>, ghost order: seq<string>)
      requires Valid()
      modifies this`dirty, db
      ensures Valid()
      ensures db.View() == SyncRows(old(db.View()), old(View()), order, now)
      ensures View() == old(View()).(dirty := old(dirty) - SyncSaved(old(db.View()), old(View()), order, now))
      ensures Stopped(old(dirty), order, fault, raised)
      ensures DbOk(old(db.View())) ==> raised.None?
    {
      hide BeatOk, SyncRows, SyncSaved, Slots, Items, SaveEntry, DbOk, Raises;
      ghost var before, found := View(), db.View();
      ShowsItself();
      var success;
      success, raised, order := SaveDirty(fault, now, before);
      if DbOk(found) && raised.Some? {
        NothingRaises(found, before, order, now, raised.value);
      }
      assert View() == before;
      dirty := dirty - success;
      assert View() == before.(dirty := dirty);
      SameSlotsOk(before, View());
    }

    /** A name that was saved is no longer dirty. */
    method Clean(n: string)
      requires Valid()
      modifies this`dirty
      ensures Valid() && View() == old(View()).(dirty := old(dirty) - {n})
      ensures Instances() == old(Instances())
    {
      hide BeatOk, Slots, Items, Filed;
      ghost var b := View();
      dirty := dirty - {n};
      assert View() == b.(dirty := dirty);
      SameSlotsOk(b, View());
    }

    /** `all_as_schedule`: a new instance and a new entry for every row that the filter keeps. */
    method AllAsSchedule(f: Filter, now: Time) returns (s: map<string, ModelEntry>)
      requires UniqueNames(db.rows)
      ensures NewEntries(s) && Filed(s) && (forall n :: n in s ==> s[n].model.config.name == n)
      ensures Slots(s) == Fresh(db.rows, f, now)
    {
      s := map[];
      var todo := db.rows.Keys;
      ghost var keys: map<string, Pk> := map[];
      while todo != {}
        invariant todo <= db.rows.Keys && NewEntries(s) && Filed(s) && keys.Keys == s.Keys
        invariant forall n :: n in s ==> LoadedFrom(s[n].View(), n, keys[n], f, now) && keys[n] !in todo
        invariant forall k :: k in db.rows && k !in todo && Keep(f, db.rows[k]) ==> db.rows[k].config.name in s
        decreases |todo|
      {
        var k :| k in todo;
        todo := todo - {k};
        if Keep(f, db.rows[k]) {
          var entry := EntryOf(k, now);
          s := s[entry.name := entry];
          keys := keys[entry.name := k];
        }
      }
      LoadedIsFresh(s, keys, f, now);
    }

    method EntryOf(k: Pk, now: Time) returns (entry: ModelEntry)
      requires k in db.rows
      ensures fresh(entry) && fresh(entry.model)
      ensures entry.name == db.rows[k].config.name && entry.View() == Load(k, db.rows[k], now)
    {
      var model := new PeriodicTask(k, db.rows[k]);
      entry := new ModelEntry(model, now);
    }

    lemma LoadedIsFresh(s: map<string, ModelEntry>, keys: map<string, Pk>, f: Filter, now: Time)
      requires UniqueNames(db.rows) && keys.Keys == s.Keys
      requires forall n :: n in s ==> LoadedFrom(s[n].View(), n, keys[n], f, now)
      requires forall k :: k in db.rows && Keep(f, db.rows[k]) ==> db.rows[k].config.name in s
      ensures Slots(s) == Fresh(db.rows, f, now)
    {
      forall n | n in s ensures n in Fresh(db.rows, f, now) && s[n].View() == Fresh(db.rows, f, now)[n] {
        FreshHas(db.rows, f, now, keys[n]);
      }
      forall n | n in Fresh(db.rows, f, now) ensures n in s {
        var k := FreshFrom(db.rows, f, now, n);
      }
    }

    /** The unsaved run data of a cached entry moves into the loaded one and its model. */
    method CarryOver(cached: ModelEntry, loaded: ModelEntry)
      requires cached != loaded && cached.model != loaded.model
      modifies loaded, loaded.model
      ensures loaded.View() == Carry(cached.View(), old(loaded.View()))
    {
      loaded.model.lastRunAt := cached.model.lastRunAt;
      loaded.lastRunAt := loaded.model.lastRunAt;
      loaded.model.totalRunCount := cached.model.totalRunCount;
      loaded.totalRunCount := loaded.model.totalRunCount;
      loaded.model.noChanges := cached.model.noChanges;
    }

    /** The entries of `s` are apart from each other and from those of the schedule. */
    ghost predicate Apart(s: map<string, ModelEntry>)
      reads this
    {
      && (forall n, m :: n in s && m in s && n != m ==> s[n] != s[m] && s[n].model != s[m].model)
      && (forall n, m :: n in s && m in schedule ==> s[n] != schedule[m] && s[n].model != schedule[m].model)
      && (forall n, e :: n in s && e in Entries() ==> s[n] != e && s[n].model != e.model)
    }

    lemma ApartFrom(s: map<string, ModelEntry>, n: string)
      requires Apart(s) && n in s
      ensures forall m :: m in s && m != n ==> s[m] != s[n] && s[m].model != s[n].model
      ensures forall m :: m in schedule ==> s[n] != schedule[m] && s[n].model != schedule[m].model
    {
    }

    /** One turn of the merging loop. */
    method MergeName(s: map<string, ModelEntry>, n: string)
      requires Apart(s) && n in s && n in schedule
      modifies s[n], s[n].model
      ensures Slots(s) == old(Slots(s))[n := Carry(old(Slots(schedule))[n], old(Slots(s))[n])]
      ensures Slots(schedule) == old(Slots(schedule))
    {
      hide Slots, Carry, Apart;
      ApartFrom(s, n);
      ghost var before, cached := Slots(s), Slots(schedule);
      SlotsAt(s);
      SlotsAt(schedule);
      CarryOver(schedule[n], s[n]);
      SlotsFrom(s, before[n := s[n].View()]);
      SlotsFrom(schedule, cached);
    }

    /** The merging loop of `_refresh_schedule`, for a view `b` of the schedule. */
    method MergeDirty(s: map<string, ModelEntry>, ghost b: Beat, ghost loaded: map<string, Slot>)
      requires Apart(s) && b.schedule == Slots(schedule) && b.dirty == dirty && loaded == Slots(s)
      requires loaded.Keys == s.Keys && b.schedule.Keys == schedule.Keys
      modifies s.Values, set e | e in s.Values :: e.model
      ensures Slots(s) == Merge(b, loaded)
    {
      hide Merged, Carry, Slots, Apart;
      var todo := dirty;
      MergeNone(b, loaded);
      assert dirty - todo == {};
      while todo != {}
        invariant todo <= dirty && Apart(s)
        invariant Slots(s) == Merged(b, loaded, dirty - todo)
        invariant Slots(schedule) == b.schedule
        decreases |todo|
      {
        var n :| n in todo;
        MergeTurn(b, loaded, dirty - todo, n);
        assert dirty - (todo - {n}) == (dirty - todo) + {n};
        todo := todo - {n};
        if n in s && n in schedule {
          MergeName(s, n);
        }
      }
      assert dirty - todo == dirty;
    }

    /** `_refresh_schedule`, for a view `b` of the scheduler. */
    method RefreshSchedule(f: Filter, now: Time, ghost b: Beat) returns (s: map<string, ModelEntry>)
      requires UniqueNames(db.rows) && b.schedule == Slots(schedule) && b.dirty == dirty
      ensures NewEntries(s) && Filed(s)
      ensures Slots(s) == Merge(b, Fresh(db.rows, f, now))
    {
      hide Fresh, Merge, Slots;
      s := AllAsSchedule(f, now);
      if schedule == map[] {
        NothingToMerge(b, Slots(s));
      } else {
        NewIsApart(s);
        SlotsKeys(s);
        SlotsKeys(schedule);
        MergeDirty(s, b, Slots(s));
      }
    }

    lemma NothingToMerge(b: Beat, loaded: map<string, Slot>)
      requires schedule == map[] && b.schedule == Slots(schedule)
      ensures Merge(b, loaded) == loaded
    {
    }

    twostate lemma NewIsApart(new s: map<string, ModelEntry>)
      requires NewEntries(s) && Filed(s) && schedule == old(schedule) && heap == old(heap)
      requires forall n :: n in s ==> s[n].model.config.name == n
      ensures Apart(s)
    {
      forall n, m | n in s && m in schedule
        ensures s[n] != schedule[m] && s[n].model != schedule[m].model
      {
        assert old(allocated(schedule[m])) && old(allocated(schedule[m].model));
      }
      forall n, e | n in s && e in Entries()
        ensures s[n] != e && s[n].model != e.model
      {
        assert e in old(Entries());
        assert old(allocated(e)) && old(allocated(e.model));
      }
    }

    /** The head of the `schedule` property: whether to reload, and whether for the first time. */
    method Decide(a: Time, pollFails: bool) returns (update: bool, initial: bool)
      requires Valid()
      modifies this`initialRead, this`lastTimestamp, this`lastFullSync
      ensures Valid()
      ensures var p := if pollFails then Failed else Answered(db.lastUpdate);
              && View() == AfterDecision(old(View()), a, p)
              && Beats.Decide(old(View()), a, p) == (if update then Decision.Reload(initial) else Stay)
      ensures initial ==> heap.None?
    {
      hide BeatOk, Slots, Items;
      ghost var before := View();
      initial, update := false, false;
      if initialRead {
        initial, update := true, true;
        initialRead := false;
        lastFullSync := a;
      } else {
        var changed := ScheduleChanged(pollFails);
        if changed {
          update := true;
          lastFullSync := a;
        }
      }
      if !update {
        if a - lastFullSync >= SYNC_MAX_INTERVAL {
          update := true;
          lastFullSync := a;
        }
      }
      SameSlotsOk(before, View());
    }

    /** The reload at the end of the `schedule` property. */
    method LoadAgain(f: Filter, q: Time, initial: bool)
      requires Valid() && DbOk(db.View()) && (initial ==> heap.None?) && !initialRead
      modifies this`schedule, this`heap, this`heapInvalidated
      ensures Valid() && View() == Refresh(old(View()), db.rows, f, q, initial)
      ensures fresh(Instances())
    {
      hide BeatOk, Fresh, Merge;
      ghost var before := View();
      var s := RefreshSchedule(f, q, before);
      schedule := s;
      if !initial {
        heap := Some([]);
        heapInvalidated := true;
      }
      MergeOk(before, db.rows, f, q, initial);
    }

    /** The sync at the head of an update, in front of the tables `found`, got through `order`: the names among it
        that have an entry and a row, and no others, are no longer dirty, and their rows hold the models' run data. */
    ghost predicate Synced(mid: Beat, found: Db, order: seq<string>, saved: Db, synced: Beat) {
      && synced == mid.(dirty := synced.dirty)
      && synced.dirty == (set n | n in mid.dirty && !(n in order && Savable(found, mid, n)))
      && forall n :: n in order && Savable(found, mid, n) ==> RunSaved(saved, mid, n)
    }

    /** The update inside the `schedule` property. Other processes have left `found` when the sync starts, and they
        make `meanwhile(saved)` of what it leaves before the reload reads. */
    method Update(fault: set<string>, t: Time, f: Filter, q: Time, initial: bool, found: Db, meanwhile: Db -> Db)
        returns (ghost order: seq<string>)
      requires Valid() && (initial ==> heap.None?) && !initialRead
      requires DbOk(found) && forall d :: DbOk(d) ==> DbOk(meanwhile(d))
      modifies this, db
      ensures Valid() && Stopped(old(dirty), order, fault, None)
      ensures var mid, saved := old(View()), SyncRows(found, old(View()), order, t);
              var synced := mid.(dirty := mid.dirty - SyncSaved(found, mid, order, t));
              && DbOk(saved) && DbOk(meanwhile(saved)) && Synced(mid, found, order, saved, synced)
              && db.View() == meanwhile(saved)
              && UniqueNames(meanwhile(saved).rows)
              && View() == Refresh(synced, meanwhile(saved).rows, f, q, initial)
    {
      hide BeatOk, Fresh, Merge, SyncRows, SyncSaved, DbOk, Slots, Items, Refresh, Savable, RunSaved;
      ghost var mid := View();
      db.Become(found);
      var raised;
      raised, order := Sync(fault, t);
      SyncOutcome(found, mid, order, t);
      SyncKeepsDbOk(found, mid, order, t);
      ghost var saved, synced := db.View(), View();
      assert Synced(mid, found, order, saved, synced);
      db.Become(meanwhile(db.View()));
      NamesAreUnique(db.View());
      LoadAgain(f, q, initial);
    }

    /** The `schedule` property. If it decides to reload, the sync comes first: with no fault in its way, every name
        that was dirty and has an entry and a row is clean afterwards, its row held the model's run data before the
        reload read the tables, and every other name that was dirty still is. */
    method Schedule(a: Time, pollFails: bool, fault: set<string>, t: Time, f: Filter, q: Time,
                    found: Db, meanwhile: Db -> Db)
        returns (s: map<string, ModelEntry>, ghost order: seq<string>)
      requires Valid()
      requires DbOk(found) && forall d :: DbOk(d) ==> DbOk(meanwhile(d))
      modifies this, db
      ensures Valid() && s == schedule
      ensures var p := if pollFails then Failed else Answered(old(db.lastUpdate));
              var mid := AfterDecision(old(View()), a, p);
              match Beats.Decide(old(View()), a, p)
              case Stay => View() == mid && db.View() == old(db.View())
              case Reload(initial) =>
                var saved := SyncRows(found, mid, order, t);
                && Synced(mid, found, order, saved, mid.(dirty := dirty))
                && db.View() == meanwhile(saved) && UniqueNames(meanwhile(saved).rows)
                && View() == Refresh(mid.(dirty := dirty), meanwhile(saved).rows, f, q, initial)
      ensures var p := if pollFails then Failed else Answered(old(db.lastUpdate));
              Beats.Decide(old(View()), a, p).Reload? ==>
                && Stopped(old(dirty), order, fault, None)
                && (fault !! old(dirty) ==> dirty == set n | n in old(dirty) && !Savable(found, old(View()), n))
    {
      hide BeatOk, DbOk, Slots, Items, SyncRows, SyncSaved, Refresh, RunSaved;
      ghost var before := View();
      var update, initial := Decide(a, pollFails);
      ghost var mid := View();
      DecisionKeepsSlots(before, a, if pollFails then Failed else Answered(db.lastUpdate));
      order := [];
      if update {
        order := Update(fault, t, f, q, initial, found, meanwhile);
        ghost var saved := SyncRows(found, mid, order, t);
        RefreshKeepsDirty(mid.(dirty := mid.dirty - SyncSaved(found, mid, order, t)), meanwhile(saved).rows, f, q, initial);
        if fault !! mid.dirty {
          assert forall n :: n in mid.dirty ==> n in order;
        }
      }
      s := schedule;
    }

    lemma DecisionKeepsSlots(b: Beat, a: Time, p: Poll)
      ensures AfterDecision(b, a, p).schedule == b.schedule && AfterDecision(b, a, p).dirty == b.dirty
    {
    }

    lemma RefreshKeepsDirty(b: Beat, rows: map<Pk, Row>, f: Filter, q: Time, initial: bool)
      requires UniqueNames(rows)
      ensures Refresh(b, rows, f, q, initial).dirty == b.dirty
    {
    }

    /** `schedules_equal`; `same` is what Celery's own comparison would say. */
    method SchedulesEqual(same: bool) returns (equal: bool)
      requires Valid()
      modifies this`heapInvalidated
      ensures Valid() && View() == old(View()).(heapInvalidated := false)
      ensures equal == (!old(heapInvalidated) && same)
    {
      hide BeatOk, Slots, Items;
      ghost var before := View();
      if heapInvalidated {
        heapInvalidated := false;
        equal := false;
      } else {
        equal := same;
      }
      SameSlotsOk(before, View());
    }

    /** The end of `update_from_dict`: the new entries join the schedule, whatever the filter says of their rows.
        They fit it if names and keys stay unique; `after` is the resulting view. */
    method Install(s: map<string, ModelEntry>, ghost after: Beat)
      requires Valid() && (heap.None? || heap == Some([])) && Filed(s)
      requires BeatOk(after) && after == View().(schedule := View().schedule + Slots(s))
      modifies this`schedule
      ensures Valid() && schedule == old(schedule) + s && View() == after
    {
      hide BeatOk, Slots, Items, Filed;
      SlotsAt(schedule);
      SlotsAt(s);
      FiledTogether(schedule, s);
      schedule := schedule + s;
      SlotsFrom(schedule, after.schedule);
      assert View() == after;
    }

    lemma FiledTogether(s: map<string, ModelEntry>, s': map<string, ModelEntry>)
      requires Filed(s) && Filed(s')
      ensures Filed(s + s')
    {
    }

    /** Every instance that the scheduler can reach belongs to a scheduled entry. */
    lemma InstancesAreScheduled()
      requires Valid()
      ensures Instances() == set n | n in schedule :: schedule[n].model
    {
      forall m | m in Instances() ensures exists n :: n in schedule && schedule[n].model == m {
        var e :| e in Entries() && e.model == m;
        if heap.Some? && e in heap.value {
          assert Live(e);
        } else {
          assert e in schedule.Values;
        }
      }
      forall n | n in schedule ensures schedule[n].model in Instances() {
        assert schedule[n] in Entries();
      }
    }

    lemma NoItems()
      requires View().heap.None? || View().heap == Some([])
      ensures heap.None? || heap == Some([])
    {
    }

    lemma ScheduledEntry(n: string)
      requires Valid() && n in schedule
      ensures Live(schedule[n]) && schedule[n].name == n && schedule[n].model in Instances()
      ensures n in View().schedule && View().schedule[n] == schedule[n].View()
    {
      assert schedule[n] in Entries();
    }

    lemma HeapEntry(i: nat)
      requires Valid() && heap.Some? && i < |heap.value|
      ensures Live(heap.value[i]) && heap.value[i].model in Instances()
      ensures View().heap.Some? && i < |View().heap.value| && View().heap.value[i].name == heap.value[i].name
    {
      assert heap.value[i] in Entries();
    }

    /******* Celery's tick, as an environment *******/

    /** `populate_heap`: the scheduled entries themselves become the heap. */
    method PopulateHeap(order: seq<string>)
      requires Valid() && !initialRead && Listing(order, schedule.Keys)
      modifies this`heap
      ensures Valid() && schedule == old(schedule)
      ensures View() == old(View()).(heap := Some(ItemsOf(old(View()).schedule, order)))
    {
      hide BeatOk, Slots, Items, ItemsOf;
      ghost var before := View();
      KeysOf();
      var s := schedule;
      heap := Some(seq(|order|, i requires 0 <= i < |order| => s[order[i]]));
      HeapOf(before, order);
      assert View() == before.(heap := Some(ItemsOf(before.schedule, order)));
      PopulatedOk(before, order);
    }

    lemma KeysOf()
      ensures View().schedule.Keys == schedule.Keys
    {
    }

    lemma HeapOf(b: Beat, order: seq<string>)
      requires Filed(schedule) && b.schedule == Slots(schedule)
      requires forall n :: n in order ==> n in schedule
      requires heap.Some? && |heap.value| == |order| && forall i :: 0 <= i < |order| ==> heap.value[i] == schedule[order[i]]
      ensures Items(heap.value) == ItemsOf(b.schedule, order)
      ensures forall e :: e in heap.value ==> Live(e)
    {
      forall i | 0 <= i < |order| ensures Items(heap.value)[i] == ItemsOf(b.schedule, order)[i] {
        assert order[i] in order;
      }
    }

    /** `is_due` on a live entry, seen from the scheduler. */
    method Examine(entry: ModelEntry, now: Time, a: Answer) returns (r: Result<SchedState, Failure>)
      requires Valid() && Live(entry)
      modifies db, entry.model
      ensures var b, n := old(View()), entry.name;
              var v := Judge(b.schedule[n].model, entry.Copies(), now, a);
              if v.Broken? then r == Err(NoLastRun) && db.View() == old(db.View()) && View() == b && Valid()
              else match EffectOn(old(db.View()), b.schedule[n].model, v, now)
                   case Err(x) => r == Err(SaveFailed(x)) && db.View() == old(db.View())
                                  && View() == WithModel(b, n, Undone(b.schedule[n].model, v, x, now))
                   case Ok(p) => r == Ok(Reply(v)) && db.View() == p.0 && View() == WithModel(b, n, p.1) && Valid()
    {
      hide BeatOk, Judge, EffectOn, Reply, Undone;
      ghost var b, n, db0 := View(), entry.name, db.View();
      ghost var v := Judge(b.schedule[n].model, entry.Copies(), now, a);
      OnlyThisModel(n);
      r := entry.IsDue(db, now, a);
      if v.Broken? {
        OneModelChanged(n);
        SameSlotsOk(b, View());
      } else if r.Ok? {
        OneModelChanged(n);
        ScheduledOk(b, n);
        EffectKeepsModel(db0, b.schedule[n].model, v, now);
        WithModelOk(b, n, EffectOn(db0, b.schedule[n].model, v, now).value.1);
      } else {
        OneModelChanged(n);
      }
    }

    lemma ScheduledOk(b: Beat, n: string)
      requires BeatOk(b) && n in b.schedule
      ensures RowOk(b.schedule[n].model.row) && b.schedule[n].model.row.config.name == n
    {
    }

    /** One turn of the tick: ask a heap item whether it is due, and if so reserve it and push the new entry in
        its place. The schedule itself is not assigned. */
    method CheckItem(i: nat, now: Time, a: Answer) returns (r: Result<SchedState, Failure>)
      requires Valid() && heap.Some? && i < |heap.value|
      modifies this`heap, this`dirty, db, heap.value[i].model
      ensures var b, n := old(View()), old(heap.value[i].name);
              var v := Judge(b.schedule[n].model, b.heap.value[i].own, now, a);
              if v.Broken? then r == Err(NoLastRun) && db.View() == old(db.View()) && View() == b
              else match EffectOn(old(db.View()), b.schedule[n].model, v, now)
                   case Err(x) => r == Err(SaveFailed(x)) && db.View() == old(db.View())
                                  && View() == WithModel(b, n, Undone(b.schedule[n].model, v, x, now))
                   case Ok(p) =>
                     && r == Ok(Reply(v)) && db.View() == p.0
                     && View() == (if Fires(v) then Dispatched(WithModel(b, n, p.1), n, i, now) else WithModel(b, n, p.1))
                     && schedule == old(schedule) && Valid()
    {
      hide BeatOk, Judge, EffectOn, Reply, Dispatched, Items, Undone;
      ghost var b := View();
      var entry := heap.value[i];
      assert entry in heap.value && Live(entry);
      ghost var v := Judge(b.schedule[entry.name].model, entry.Copies(), now, a);
      ReplyDue(v);
      r := Examine(entry, now, a);
      if r.Ok? && r.value.isDue {
        DispatchItem(i, now);
      }
    }

    lemma ReplyDue(v: Verdict)
      ensures Reply(v).isDue <==> Fires(v)
    {
    }

    lemma NamesOf(b: Beat)
      requires Valid() && b == View()
      ensures b.schedule.Keys == schedule.Keys
      ensures heap.Some? ==> |b.heap.value| == |heap.value|
                             && forall i :: 0 <= i < |heap.value| ==> b.heap.value[i].name == heap.value[i].name
    {
    }

    method DispatchItem(i: nat, now: Time)
      requires Valid() && heap.Some? && i < |heap.value|
      modifies this`heap, this`dirty, heap.value[i].model
      ensures Valid() && schedule == old(schedule)
      ensures View() == Dispatched(old(View()), old(heap.value[i].name), i, now)
    {
      hide BeatOk, Items, Slots;
      ghost var b := View();
      var entry := heap.value[i];
      NamesOf(b);
      var e := Reserve(entry, now);
      ghost var h := heap.value;
      heap := Some(heap.value[i := e]);
      ItemsUpdate(h, i, e);
      assert View() == Dispatched(b, entry.name, i, now);
      DispatchOk(b, entry.name, i, now);
      forall x | x in heap.value ensures Live(x) {
        assert x == e || x in h;
      }
    }

    ghost predicate LoadedFrom(slot: Slot, n: string, k: Pk, f: Filter, now: Time)
      reads db
    {
      k in db.rows && Keep(f, db.rows[k]) && db.rows[k].config.name == n && slot == Load(k, db.rows[k], now)
    }

    /** When only the model shared under `n` changed, the view shows it in one slot, and no heap item moves. */
    twostate lemma OneModelChanged(n: string)
      requires n in schedule && schedule == old(schedule) && heap == old(heap)
      requires forall e :: e in Entries() ==> old(allocated(e)) && old(allocated(e.model)) && unchanged(e)
      requires forall i :: i in schedule && i != n ==> unchanged(schedule[i].model)
      ensures Slots(schedule) == old(Slots(schedule))[n := old(Slots(schedule))[n].(model := schedule[n].model.View())]
      ensures heap.Some? ==> Items(heap.value) == old(Items(heap.value))
    {
      if heap.Some? {
        forall i | 0 <= i < |heap.value|
          ensures Items(heap.value)[i] == old(Items(heap.value)[i])
        {
          assert heap.value[i] in Entries();
        }
      }
    }

    /** Every scheduled model carries the name it is filed under, so no other entry shares the model of `n`. */
    lemma OnlyThisModel(n: string)
      requires Valid() && n in schedule
      ensures forall i :: i in schedule ==> schedule[i].model.config.name == i
      ensures forall i :: i in schedule && i != n ==> schedule[i].model != schedule[n].model
    {
      forall i | i in schedule ensures schedule[i].model.config.name == i {
        assert View().schedule[i].model.row.config.name == i;
      }
    }
  }
}
