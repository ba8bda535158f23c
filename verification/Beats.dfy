/** The state of `DatabaseScheduler` and its operations, as functions on values.

    The map `schedule` holds one slot per name. A heap item names the slot whose model it shares; it has
    no model of its own. The class `Schedulers.DatabaseScheduler` shows that the object graph behaves so. */
module Beats {
  import opened Base
  import opened Models
  import opened Entries
  import opened Candidates

  datatype Item = Item(name: string, own: Own)

  /** `_schedule` before the first read is the empty map: the code treats both alike.
      `lastFullSync` has no meaning before the first read. */
  datatype Beat = Beat(
    schedule: map<string, Slot>,
    heap: Option<seq<Item>>,
    heapInvalidated: bool,
    dirty: set<string>,
    lastTimestamp: Option<Time>,
    initialRead: bool,
    lastFullSync: Time)

  /******* schedule_changed *******/

  /** An attempt to read the change row: a database error, or the stored timestamp. */
  datatype Poll = Failed | Answered(ts: Option<Time>)

  predicate MovedForward(last: Option<Time>, ts: Option<Time>) {
    ts.Some? && ts.value > Or(last, ts.value)
  }

  predicate ScheduleChanged(last: Option<Time>, p: Poll) {
    p.Answered? && MovedForward(last, p.ts)
  }

  function TimestampAfter(last: Option<Time>, p: Poll): Option<Time> {
    if p.Failed? then last else p.ts
  }

  /** The remembered timestamp after a sequence of polls. */
  function TimestampAfterAll(last: Option<Time>, polls: seq<Poll>): Option<Time>
    decreases |polls|
  {
    if polls == [] then last else TimestampAfterAll(TimestampAfter(last, polls[0]), polls[1..])
  }

  /** However many polls fail after a successful one, nothing is forgotten and nothing is made up: the next
      successful poll reports a change exactly when the timestamp is newer than the one last read. */
  lemma {:induction false} FailedPollsLoseNothing(last: Option<Time>, polls: seq<Poll>, i: nat, ts: Option<Time>)
    requires i < |polls| && polls[i].Answered? && polls[i].ts.Some?
    requires forall j :: i < j < |polls| ==> polls[j].Failed?
    ensures ScheduleChanged(TimestampAfterAll(last, polls), Answered(ts)) <==>
            ts.Some? && ts.value > polls[i].ts.value
    decreases |polls|
  {
    var next := TimestampAfter(last, polls[0]);
    if i > 0 {
      FailedPollsLoseNothing(next, polls[1..], i - 1, ts);
    } else {
      FailuresKeep(next, polls[1..]);
    }
  }

  lemma {:induction false} FailuresKeep(last: Option<Time>, fails: seq<Poll>)
    requires forall j :: 0 <= j < |fails| ==> fails[j].Failed?
    ensures TimestampAfterAll(last, fails) == last
    decreases |fails|
  {
    if fails != [] {
      FailuresKeep(last, fails[1..]);
    }
  }

  /******* The decision at the head of the `schedule` property *******/

  /** Whether an access reloads, and whether it is the first read. */
  datatype Decision = Stay | Reload(initial: bool)

  function Decide(b: Beat, a: Time, p: Poll): Decision {
    if b.initialRead then Reload(true)
    else if ScheduleChanged(b.lastTimestamp, p) then Reload(false)
    else if a - b.lastFullSync >= SYNC_MAX_INTERVAL then Reload(false)
    else Stay
  }

  function AfterDecision(b: Beat, a: Time, p: Poll): Beat {
    var full := if Decide(b, a, p).Reload? then a else b.lastFullSync;
    if b.initialRead then b.(initialRead := false, lastFullSync := full)
    else b.(lastTimestamp := TimestampAfter(b.lastTimestamp, p), lastFullSync := full)
  }

  /** When an access reloads: at the first read, on a timestamp newer than the last known one, or when the last reload
      was 300 seconds ago or more; and otherwise it stays. The first read does not poll; every other access remembers
      what a successful poll read; only a reload counts as one. */
  lemma DecideExactly(b: Beat, a: Time, p: Poll)
    ensures var d, b' := Decide(b, a, p), AfterDecision(b, a, p);
            var changed := p.Answered? && p.ts.Some? && b.lastTimestamp.Some? && p.ts.value > b.lastTimestamp.value;
            && (d == Decision.Reload(true) <==> b.initialRead)
            && (d == Decision.Reload(false) <==>
                  !b.initialRead && (changed || a - b.lastFullSync >= 300 * SECOND))
            && (d == Stay <==> !b.initialRead && !changed && a - b.lastFullSync < 300 * SECOND)
            && b'.initialRead == false
            && b'.lastFullSync == (if d.Reload? then a else b.lastFullSync)
            && b'.lastTimestamp == (if p.Answered? && !b.initialRead then p.ts else b.lastTimestamp)
            && b'.(initialRead := b.initialRead, lastFullSync := b.lastFullSync, lastTimestamp := b.lastTimestamp) == b
  {
  }

  /******* sync *******/

  /** `ModelEntry.save`. */
  function SaveEntry(db: Db, m: Model, now: Time): Result<Db, SaveError> {
    if m.pk !in db.rows then Err(NoRow)
    else FullSave(db, m.pk, WithRunData(db.rows[m.pk], m.row.lastRunAt, m.row.totalRunCount), m.noChanges, now)
  }

  /** Against a well-formed table the save of an entry always goes through. It writes the run count and,
      for an enabled row, the last run; it changes no configuration and no `enabled` flag. */
  lemma SaveEntryExact(db: Db, m: Model, now: Time)
    requires DbOk(db)
    ensures SaveEntry(db, m, now).Ok? <==> m.pk in db.rows
    ensures m.pk in db.rows ==>
              var out := SaveEntry(db, m, now).value;
              && DbOk(out) && out.schedules == db.schedules
              && out.rows.Keys == db.rows.Keys
              && (forall k :: k in db.rows && k != m.pk ==> out.rows[k] == db.rows[k])
              && out.rows[m.pk].config == db.rows[m.pk].config
              && out.rows[m.pk].enabled == db.rows[m.pk].enabled
              && out.rows[m.pk].totalRunCount == m.row.totalRunCount
              && out.rows[m.pk].lastRunAt == (if db.rows[m.pk].enabled then m.row.lastRunAt else None)
              && out.rows[m.pk].dateChanged == Some(now)
              && out.lastUpdate == Changed(db.lastUpdate, m.noChanges, now)
  {
    if m.pk in db.rows {
      assert RowOk(db.rows[m.pk]);
      SaveExact(db, m.pk, WithRunData(db.rows[m.pk], m.row.lastRunAt, m.row.totalRunCount), m.noChanges, now);
    }
  }

  /** The save of one dirty name in the loop of `sync`: a name without an entry or without a row is skipped. */
  predicate Savable(db: Db, b: Beat, n: string) {
    n in b.schedule && b.schedule[n].model.pk in db.rows
  }

  /** The database and the saved names after `sync` has gone through `order` without a database error. */
  function SyncRows(db: Db, b: Beat, order: seq<string>, now: Time): Db
    decreases |order|
  {
    if order == [] then db
    else
      var n, before := order[|order| - 1], SyncRows(db, b, order[..|order| - 1], now);
      if n in b.schedule && SaveEntry(before, b.schedule[n].model, now).Ok?
      then SaveEntry(before, b.schedule[n].model, now).value
      else before
  }

  /** The names among `order` whose save went through. */
  function SyncSaved(db: Db, b: Beat, order: seq<string>, now: Time): set<string>
    decreases |order|
  {
    if order == [] then {}
    else
      var n, rest := order[|order| - 1], order[..|order| - 1];
      var before := SyncRows(db, b, rest, now);
      SyncSaved(db, b, rest, now)
      + (if n in b.schedule && SaveEntry(before, b.schedule[n].model, now).Ok? then {n} else {})
  }

  /** The models that this saves, by key. */
  function SavedModels(db: Db, b: Beat, order: seq<string>): map<Pk, Model>
    decreases |order|
  {
    if order == [] then map[]
    else
      var n, before := order[|order| - 1], SavedModels(db, b, order[..|order| - 1]);
      if Savable(db, b, n) then before[b.schedule[n].model.pk := b.schedule[n].model] else before
  }

  predicate HoldsRun(r: Row, m: Model) {
    r.totalRunCount == m.row.totalRunCount && (r.enabled ==> r.lastRunAt == m.row.lastRunAt)
  }

  /** Exactly the models of `saved` were written, and of each only the run data: no configuration and no
      `enabled` flag of any row changed, no other row changed at all, and the timestamp stayed if the saved
      models ask for it. */
  ghost predicate SavedExactly(db: Db, out: Db, saved: map<Pk, Model>) {
    && out.rows.Keys == db.rows.Keys && saved.Keys <= db.rows.Keys
    && out.schedules == db.schedules
    && (forall k :: k in db.rows ==> RowSaved(db.rows[k], out.rows[k], k, saved))
    && ((forall k :: k in saved ==> saved[k].noChanges) ==> out.lastUpdate == db.lastUpdate)
  }

  predicate RowSaved(r: Row, r': Row, k: Pk, saved: map<Pk, Model>) {
    && r'.config == r.config && r'.enabled == r.enabled
    && (if k in saved then HoldsRun(r', saved[k]) else r' == r)
  }

  lemma OneMoreSaved(db: Db, mid: Db, out: Db, saved: map<Pk, Model>, m: Model)
    requires SavedExactly(db, mid, saved) && m.pk in db.rows && m.pk !in saved
    requires out.rows.Keys == mid.rows.Keys && out.schedules == mid.schedules
    requires forall k :: k in mid.rows && k != m.pk ==> out.rows[k] == mid.rows[k]
    requires out.rows[m.pk].config == mid.rows[m.pk].config && out.rows[m.pk].enabled == mid.rows[m.pk].enabled
    requires HoldsRun(out.rows[m.pk], m)
    requires m.noChanges ==> out.lastUpdate == mid.lastUpdate
    ensures SavedExactly(db, out, saved[m.pk := m])
  {
    var saved' := saved[m.pk := m];
    forall k | k in db.rows ensures RowSaved(db.rows[k], out.rows[k], k, saved') {
      assert RowSaved(db.rows[k], mid.rows[k], k, saved);
    }
    if forall k :: k in saved' ==> saved'[k].noChanges {
      assert saved'[m.pk] == m;
      assert forall k :: k in saved ==> saved'[k] == saved[k];
    }
  }

  /** Each saved model is the model of a name in `order`, and each savable name of `order` is saved. */
  lemma {:induction false} SavedModelsAre(db: Db, b: Beat, order: seq<string>)
    requires BeatOk(b)
    ensures forall n :: n in order && Savable(db, b, n) ==>
              b.schedule[n].model.pk in SavedModels(db, b, order)
              && SavedModels(db, b, order)[b.schedule[n].model.pk] == b.schedule[n].model
    ensures forall k :: k in SavedModels(db, b, order) ==>
              var m := SavedModels(db, b, order)[k];
              m.pk == k && m.row.config.name in order && Savable(db, b, m.row.config.name)
    decreases |order|
  {
    if order != [] {
      var rest, n := order[..|order| - 1], order[|order| - 1];
      SavedModelsAre(db, b, rest);
      assert order == rest + [n];
    }
  }

  lemma NotYetSaved(db: Db, b: Beat, order: seq<string>, n: string)
    requires BeatOk(b) && n !in order && n in b.schedule
    ensures b.schedule[n].model.pk !in SavedModels(db, b, order)
  {
    SavedModelsAre(db, b, order);
  }

  lemma SavedModelsTurn(db: Db, b: Beat, order: seq<string>, n: string)
    ensures SavedModels(db, b, order + [n]) ==
            if Savable(db, b, n) then SavedModels(db, b, order)[b.schedule[n].model.pk := b.schedule[n].model]
            else SavedModels(db, b, order)
  {
    assert (order + [n])[..|order + [n]| - 1] == order;
  }

  /** One more turn of the loop saves one more model, or nothing. */
  lemma SyncPartialTurn(db: Db, b: Beat, order: seq<string>, n: string, now: Time)
    requires BeatOk(b) && n !in order
    requires DbOk(SyncRows(db, b, order, now))
    requires SavedExactly(db, SyncRows(db, b, order, now), SavedModels(db, b, order))
    ensures DbOk(SyncRows(db, b, order + [n], now))
    ensures SavedExactly(db, SyncRows(db, b, order + [n], now), SavedModels(db, b, order + [n]))
  {
    var mid := SyncRows(db, b, order, now);
    SyncTurn(db, b, order, n, now);
    SavedModelsTurn(db, b, order, n);
    if Savable(db, b, n) {
      var m := b.schedule[n].model;
      assert m.pk in mid.rows;
      NotYetSaved(db, b, order, n);
      SaveEntryExact(mid, m, now);
      hide SyncRows, SavedModels, SaveEntry, SavedExactly, DbOk, BeatOk;
      OneMoreSaved(db, mid, SaveEntry(mid, m, now).value, SavedModels(db, b, order), m);
    } else {
      hide SyncRows, SavedModels, DbOk, BeatOk;
    }
  }

  /** `sync` under partial failure, wherever the loop stops, for `order` the names it got through: exactly the
      names with an entry and a row are saved, and nothing else happens. */
  lemma {:induction false} SyncPartial(db: Db, b: Beat, order: seq<string>, now: Time)
    requires DbOk(db) && BeatOk(b)
    requires forall i, j :: 0 <= i < j < |order| ==> order[i] != order[j]
    ensures DbOk(SyncRows(db, b, order, now))
    ensures SavedExactly(db, SyncRows(db, b, order, now), SavedModels(db, b, order))
    decreases |order|
  {
    if order != [] {
      hide SyncRows, SavedModels, SavedExactly, DbOk, BeatOk;
      var rest, n := order[..|order| - 1], order[|order| - 1];
      assert order == rest + [n];
      SyncPartial(db, b, rest, now);
      SyncPartialTurn(db, b, rest, n, now);
    }
  }

  lemma SyncKeepsDbOk(db: Db, b: Beat, order: seq<string>, now: Time)
    requires DbOk(db) && BeatOk(b)
    requires forall i, j :: 0 <= i < j < |order| ==> order[i] != order[j]
    ensures DbOk(SyncRows(db, b, order, now))
  {
    SyncPartial(db, b, order, now);
  }

  /** Whether a name can be saved does not change while others are. */
  lemma SavableNow(db: Db, b: Beat, order: seq<string>, n: string, now: Time)
    requires DbOk(SyncRows(db, b, order, now)) && SyncRows(db, b, order, now).rows.Keys == db.rows.Keys
    ensures n in b.schedule && SaveEntry(SyncRows(db, b, order, now), b.schedule[n].model, now).Ok? <==>
            Savable(db, b, n)
  {
    if n in b.schedule {
      SaveEntryExact(SyncRows(db, b, order, now), b.schedule[n].model, now);
    }
  }

  lemma SavableSnoc(db: Db, b: Beat, rest: seq<string>, n: string)
    ensures (set i | i in rest + [n] && Savable(db, b, i)) ==
            (set i | i in rest && Savable(db, b, i)) + (if Savable(db, b, n) then {n} else {})
  {
  }

  /** The names that leave the dirty set are exactly those with an entry and a row. */
  lemma {:induction false} SyncSavedIs(db: Db, b: Beat, order: seq<string>, now: Time)
    requires DbOk(db) && BeatOk(b)
    requires forall i, j :: 0 <= i < j < |order| ==> order[i] != order[j]
    ensures SyncSaved(db, b, order, now) == set n | n in order && Savable(db, b, n)
    decreases |order|
  {
    if order != [] {
      hide SaveEntry, SavedExactly, SyncRows, SyncSaved, Savable, BeatOk;
      var rest, n := order[..|order| - 1], order[|order| - 1];
      SyncSavedIs(db, b, rest, now);
      SyncPartial(db, b, rest, now);
      assert order == rest + [n];
      SyncTurn(db, b, rest, n, now);
      SavableNow(db, b, rest, n, now);
      SavableSnoc(db, b, rest, n);
    }
  }

  /** What a sync that got through `order` has achieved: the names with an entry and a row, and no others, are no longer
      dirty, and their rows hold the models' run data. */
  lemma SyncOutcome(db: Db, b: Beat, order: seq<string>, now: Time)
    requires DbOk(db) && BeatOk(b)
    requires forall i, j :: 0 <= i < j < |order| ==> order[i] != order[j]
    ensures SyncSaved(db, b, order, now) == set n | n in order && Savable(db, b, n)
    ensures forall n :: n in order && Savable(db, b, n) ==> RunSaved(SyncRows(db, b, order, now), b, n)
  {
    hide SyncRows, SyncSaved, SavedModels, DbOk, BeatOk, HoldsRun;
    SyncSavedIs(db, b, order, now);
    SyncPartial(db, b, order, now);
    SavedModelsAre(db, b, order);
    var out, saved := SyncRows(db, b, order, now), SavedModels(db, b, order);
    forall n | n in order && Savable(db, b, n) ensures RunSaved(out, b, n) {
      var k := b.schedule[n].model.pk;
      assert RowSaved(db.rows[k], out.rows[k], k, saved);
    }
  }

  predicate RunSaved(db: Db, b: Beat, n: string) {
    Savable(db, b, n) && HoldsRun(db.rows[b.schedule[n].model.pk], b.schedule[n].model)
  }

  lemma SyncNone(db: Db, b: Beat, now: Time)
    ensures SyncRows(db, b, [], now) == db && SyncSaved(db, b, [], now) == {}
  {
  }

  /** One more turn of the loop. */
  lemma SyncTurn(db: Db, b: Beat, order: seq<string>, n: string, now: Time)
    ensures var before := SyncRows(db, b, order, now);
            var saved := n in b.schedule && SaveEntry(before, b.schedule[n].model, now).Ok?;
            && SyncRows(db, b, order + [n], now) ==
                 (if saved then SaveEntry(before, b.schedule[n].model, now).value else before)
            && SyncSaved(db, b, order + [n], now) == SyncSaved(db, b, order, now) + (if saved then {n} else {})
  {
    assert (order + [n])[..|order + [n]| - 1] == order;
  }

  /******* reserve *******/

  /** `reserve` advances the shared model and marks the name dirty. The slot's own copies stay as they were. */
  function Reserve(b: Beat, n: string, now: Time): Beat
    requires n in b.schedule
  {
    b.(schedule := b.schedule[n := b.schedule[n].(model := Advance(b.schedule[n].model, now))],
       dirty := b.dirty + {n})
  }

  /** `reserve`, and the push of the new entry in place of the one that was popped. */
  function Dispatched(b: Beat, n: string, i: nat, now: Time): Beat
    requires n in b.schedule && b.heap.Some? && i < |b.heap.value|
  {
    var b' := Reserve(b, n, now);
    b'.(heap := Some(b'.heap.value[i := Item(n, RunData(b'.schedule[n].model))]))
  }

  /******* _refresh_schedule *******/

  /** `all_as_schedule`. */
  ghost function Fresh(rows: map<Pk, Row>, f: Filter, now: Time): map<string, Slot>
    requires UniqueNames(rows)
  {
    map k | k in rows && Keep(f, rows[k]) :: rows[k].config.name := Load(k, rows[k], now)
  }

  /** Unsaved run data moves from the old entry into the loaded one. */
  function Carry(cached: Slot, loaded: Slot): Slot {
    Slot(Model(loaded.model.pk,
               WithRunData(loaded.model.row, cached.model.row.lastRunAt, cached.model.row.totalRunCount),
               cached.model.noChanges),
         RunData(cached.model))
  }

  function Merge(b: Beat, loaded: map<string, Slot>): map<string, Slot> {
    Merged(b, loaded, b.dirty)
  }

  /** The loaded schedule once the dirty names in `done` have been looked at. */
  function Merged(b: Beat, loaded: map<string, Slot>, done: set<string>): map<string, Slot> {
    map n | n in loaded :: if n in done && n in b.schedule then Carry(b.schedule[n], loaded[n]) else loaded[n]
  }

  lemma MergeTurn(b: Beat, loaded: map<string, Slot>, done: set<string>, n: string)
    requires n !in done
    ensures Merged(b, loaded, done + {n}) ==
            if n in loaded && n in b.schedule then Merged(b, loaded, done)[n := Carry(b.schedule[n], loaded[n])]
            else Merged(b, loaded, done)
    ensures Merged(b, loaded, done).Keys == loaded.Keys
    ensures n in loaded ==> Merged(b, loaded, done)[n] == loaded[n]
  {
  }

  lemma MergeNone(b: Beat, loaded: map<string, Slot>)
    ensures Merged(b, loaded, {}) == loaded
  {
  }

  /** The second half of the `schedule` property. */
  ghost function Refresh(b: Beat, rows: map<Pk, Row>, f: Filter, now: Time, initial: bool): Beat
    requires UniqueNames(rows)
  {
    var b' := b.(schedule := Merge(b, Fresh(rows, f, now)));
    if initial then b' else b'.(heap := Some([]), heapInvalidated := true)
  }

  /** What a reload does besides replacing the schedule: it empties the heap and flags it, unless it is the first. */
  lemma RefreshExactly(b: Beat, rows: map<Pk, Row>, f: Filter, now: Time, initial: bool)
    requires UniqueNames(rows)
    ensures var b' := Refresh(b, rows, f, now, initial);
            && (initial ==> b'.(schedule := b.schedule) == b)
            && (!initial ==> b'.heap == Some([]) && b'.heapInvalidated
                             && b'.(schedule := b.schedule, heap := b.heap, heapInvalidated := b.heapInvalidated) == b)
  {
    hide Fresh, Merge;
  }

  /** What carrying over takes from the cached entry, and what it leaves of the loaded one. */
  lemma CarryExactly(cached: Slot, loaded: Slot)
    ensures var s := Carry(cached, loaded);
            && s.model.row.lastRunAt == cached.model.row.lastRunAt == s.own.lastRunAt
            && s.model.row.totalRunCount == cached.model.row.totalRunCount == s.own.totalRunCount
            && s.model.noChanges == cached.model.noChanges && s.model.pk == loaded.model.pk
            && s.model.row.(lastRunAt := loaded.model.row.lastRunAt, totalRunCount := loaded.model.row.totalRunCount)
               == loaded.model.row
  {
  }

  /** Every kept row appears under its name, with its own key and configuration. */
  lemma FreshHas(rows: map<Pk, Row>, f: Filter, now: Time, k: Pk)
    requires UniqueNames(rows) && k in rows && Keep(f, rows[k])
    ensures rows[k].config.name in Fresh(rows, f, now)
    ensures Fresh(rows, f, now)[rows[k].config.name] == Load(k, rows[k], now)
  {
  }

  /** Conversely, every loaded slot comes from a kept row. */
  lemma FreshFrom(rows: map<Pk, Row>, f: Filter, now: Time, n: string) returns (k: Pk)
    requires UniqueNames(rows) && n in Fresh(rows, f, now)
    ensures k in rows && Keep(f, rows[k]) && rows[k].config.name == n
    ensures Fresh(rows, f, now)[n] == Load(k, rows[k], now)
  {
    k :| k in rows && Keep(f, rows[k]) && rows[k].config.name == n;
  }

  /** Where an entry of the merged schedule comes from. */
  lemma MergedFrom(b: Beat, rows: map<Pk, Row>, f: Filter, now: Time, n: string) returns (k: Pk)
    requires UniqueNames(rows) && n in Merge(b, Fresh(rows, f, now))
    ensures k in rows && Keep(f, rows[k]) && rows[k].config.name == n
    ensures Merge(b, Fresh(rows, f, now))[n] ==
            if n in b.dirty && n in b.schedule then Carry(b.schedule[n], Load(k, rows[k], now)) else Load(k, rows[k], now)
  {
    k := FreshFrom(rows, f, now, n);
  }

  /******* schedules_equal *******/

  /** The rebuilt heap: one item per name, in some order. */
  function ItemsOf(schedule: map<string, Slot>, order: seq<string>): seq<Item>
    requires forall n :: n in order ==> n in schedule
  {
    seq(|order|, i requires 0 <= i < |order| => Item(order[i], schedule[order[i]].own))
  }

  ghost predicate Listing(order: seq<string>, names: set<string>) {
    && (forall n :: n in order <==> n in names)
    && (forall i, j :: 0 <= i < j < |order| ==> order[i] != order[j])
  }

  /******* is_due and what it does to the shared state *******/

  /** The database and the slot after `is_due` took the branch of a verdict. */
  function EffectOn(db: Db, m: Model, v: Verdict, now: Time): Result<(Db, Model), SaveError> {
    match v
    case Expired =>
      var m' := Expire(m, now);
      var r := FullSave(db, m.pk, m.row.(enabled := false), true, now);
      if r.Ok? then Ok((r.value, m')) else Err(r.error)
    case OneOffDone =>
      var m' := Retire(m, now);
      var r := PartialSave(db, m.pk, m.row.(enabled := false, totalRunCount := 0), false, now);
      if r.Ok? then Ok((r.value, m')) else Err(r.error)
    case _ => Ok((db, m))
  }

  /** Only these two branches have an effect. */
  lemma NoOtherEffect(db: Db, m: Model, v: Verdict, now: Time)
    requires !v.Expired? && !v.OneOffDone?
    ensures EffectOn(db, m, v, now) == Ok((db, m))
  {
  }

  /** The expiry branch writes the whole cached instance, quietly. It goes through unless the cached name was taken
      by another row or the schedule row is gone; it leaves the row's configuration alone if and only if the cache
      has the row's current columns, however old the cached content of the schedule row is; and it re-creates a row
      that was deleted. */
  lemma ExpireExact(db: Db, m: Model, now: Time)
    requires DbOk(db) && RowOk(m.row)
    ensures EffectOn(db, m, Expired, now).Ok? <==>
            !Taken(db.rows, m.pk, m.row.config.name) && Known(db.schedules, m.row.config)
    ensures EffectOn(db, m, Expired, now).Ok? ==>
              var (out, m') := EffectOn(db, m, Expired, now).value;
              && DbOk(out) && out.rows.Keys == db.rows.Keys + {m.pk} && out.lastUpdate == db.lastUpdate
              && out.schedules == db.schedules
              && (forall k :: k in db.rows && k != m.pk ==> out.rows[k] == db.rows[k])
              && out.rows[m.pk] == Written(db.schedules, m'.row)
              && m' == Model(m.pk, Row(m.row.config, false, None, m.row.totalRunCount, Some(now)), true)
              && (m.pk in db.rows ==>
                    (out.rows[m.pk].config == db.rows[m.pk].config <==>
                     SameColumns(m.row.config, db.rows[m.pk].config)))
  {
    hide Joined, Known, Columns;
    SaveExact(db, m.pk, m.row.(enabled := false), true, now);
    if m.pk in db.rows && Known(db.schedules, m.row.config) {
      JoinedColumns(db.schedules, m.row.config, db.rows[m.pk].config);
    }
  }

  /** The one-off branch writes the run columns only, and bumps. It goes through if and only if the row is there and
      the cached name is free; whatever the cache holds, the configuration stays the row's. */
  lemma RetireExact(db: Db, m: Model, now: Time)
    requires DbOk(db) && RowOk(m.row)
    ensures EffectOn(db, m, OneOffDone, now).Ok? <==>
            m.pk in db.rows && !Taken(db.rows, m.pk, m.row.config.name)
    ensures EffectOn(db, m, OneOffDone, now).Ok? ==>
              var (out, m') := EffectOn(db, m, OneOffDone, now).value;
              && DbOk(out) && out.rows.Keys == db.rows.Keys && out.lastUpdate == Some(now)
              && (forall k :: k in db.rows && k != m.pk ==> out.rows[k] == db.rows[k])
              && out.rows[m.pk] == Row(db.rows[m.pk].config, false, None, 0, Some(now))
              && m' == Model(m.pk, Row(m.row.config, false, None, 0, Some(now)), false)
  {
    PartialSaveExact(db, m.pk, m.row.(enabled := false, totalRunCount := 0), false, now);
  }

  function WithModel(b: Beat, n: string, m: Model): Beat
    requires n in b.schedule
  {
    b.(schedule := b.schedule[n := b.schedule[n].(model := m)])
  }

  /******* What the scheduler keeps *******/

  ghost predicate BeatOk(b: Beat) {
    && (forall n :: n in b.schedule ==> b.schedule[n].model.row.config.name == n && RowOk(b.schedule[n].model.row))
    && (forall n, m :: n in b.schedule && m in b.schedule && b.schedule[n].model.pk == b.schedule[m].model.pk ==> n == m)
    && (b.heap.Some? ==>
          && (forall i :: 0 <= i < |b.heap.value| ==> b.heap.value[i].name in b.schedule)
          && (forall i, j :: 0 <= i < j < |b.heap.value| ==> b.heap.value[i].name != b.heap.value[j].name))
  }

  lemma SameSlotsOk(b: Beat, b': Beat)
    requires BeatOk(b) && b'.schedule == b.schedule && b'.heap == b.heap
    ensures BeatOk(b')
  {
  }

  lemma WithModelOk(b: Beat, n: string, m: Model)
    requires BeatOk(b) && n in b.schedule && RowOk(m.row)
    requires m.pk == b.schedule[n].model.pk && m.row.config.name == n
    ensures BeatOk(WithModel(b, n, m))
  {
    var b' := WithModel(b, n, m);
    forall i, j | i in b'.schedule && j in b'.schedule && b'.schedule[i].model.pk == b'.schedule[j].model.pk
      ensures i == j
    {
      assert b.schedule[i].model.pk == b.schedule[j].model.pk;
    }
  }

  lemma EffectKeepsModel(db: Db, m: Model, v: Verdict, now: Time)
    requires RowOk(m.row) && EffectOn(db, m, v, now).Ok?
    ensures var m' := EffectOn(db, m, v, now).value.1;
            && RowOk(m'.row) && m'.pk == m.pk && m'.row.config == m.row.config
            && (Fires(v) ==> EffectOn(db, m, v, now).value == (db, m))
  {
  }

  /** A verdict that leaves the model enabled has no effect at all. */
  lemma EffectKeepsEnabled(db: Db, m: Model, v: Verdict, now: Time)
    requires EffectOn(db, m, v, now).Ok?
    ensures EffectOn(db, m, v, now).value.1.row.enabled ==> EffectOn(db, m, v, now).value == (db, m)
  {
  }

  lemma PopulatedOk(b: Beat, order: seq<string>)
    requires BeatOk(b) && Listing(order, b.schedule.Keys)
    ensures BeatOk(b.(heap := Some(ItemsOf(b.schedule, order))))
  {
    forall i | 0 <= i < |order| ensures order[i] in b.schedule {
      assert order[i] in order;
    }
  }

  lemma ReserveOk(b: Beat, n: string, now: Time)
    requires BeatOk(b) && n in b.schedule
    ensures BeatOk(Reserve(b, n, now))
  {
    assert Reserve(b, n, now) == WithModel(b, n, Advance(b.schedule[n].model, now)).(dirty := b.dirty + {n});
    WithModelOk(b, n, Advance(b.schedule[n].model, now));
  }

  lemma DispatchOk(b: Beat, n: string, i: nat, now: Time)
    requires BeatOk(b) && n in b.schedule && b.heap.Some? && i < |b.heap.value| && b.heap.value[i].name == n
    ensures BeatOk(Dispatched(b, n, i, now))
  {
    ReserveOk(b, n, now);
  }

  lemma FreshOk(b: Beat, rows: map<Pk, Row>, f: Filter, now: Time, n: string) returns (k: Pk)
    requires RowsOk(rows) && n in Merge(b, Fresh(rows, f, now))
    ensures var m := Merge(b, Fresh(rows, f, now))[n].model;
            m.pk == k && m.row.config.name == n && RowOk(m.row) && k in rows && rows[k].config.name == n
  {
    k := MergedFrom(b, rows, f, now, n);
    assert RowOk(rows[k]);
  }

  lemma MergeOk(b: Beat, rows: map<Pk, Row>, f: Filter, now: Time, initial: bool)
    requires BeatOk(b) && RowsOk(rows) && (initial ==> b.heap.None?)
    ensures BeatOk(Refresh(b, rows, f, now, initial))
  {
    hide Fresh, Merge;
    var s := Merge(b, Fresh(rows, f, now));
    forall n | n in s
      ensures s[n].model.row.config.name == n && RowOk(s[n].model.row)
    {
      var k := FreshOk(b, rows, f, now, n);
    }
    forall n, m | n in s && m in s && s[n].model.pk == s[m].model.pk
      ensures n == m
    {
      var j := FreshOk(b, rows, f, now, n);
      var k := FreshOk(b, rows, f, now, m);
    }
  }
}
