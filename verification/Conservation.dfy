/** Run data is conserved: no dispatch is forgotten and none is invented, whatever syncs fail and
    however often the schedule is reloaded. */
module Conservation {
  import opened Base
  import opened Models
  import opened Entries
  import opened Beats
  import opened Machine

  /** The task of row `k` is scheduled under `n` and enabled in memory. */
  ghost predicate Here(w: World, n: string, k: Pk) {
    n in w.beat.schedule && w.beat.schedule[n].model.pk == k && w.beat.schedule[n].model.row.enabled
  }

  /** The two rows are both enabled or both disabled, and load the same run data. */
  predicate SameRun(k: Pk, a: Row, b: Row) {
    a.enabled == b.enabled && RunData(Load(k, a, 0).model) == RunData(Load(k, b, 0).model)
  }

  /** Other writers may change anything else, edit the schedule row or delete the task, but do not touch its run data
      or switch it on or off; and setup installs no entry for it. */
  ghost predicate Untouched(w: World, s: Step, k: Pk) {
    && (s.Write? && k in s.rows ==> k in w.db.rows && SameRun(k, w.db.rows[k], s.rows[k]))
    && (s.Install? ==> forall n :: n in s.entries ==> s.entries[n].model.pk != k)
  }

  /** The task stays scheduled and enabled all along, and nobody else touches its run data. */
  ghost predicate Stays(w: World, steps: seq<Step>, n: string, k: Pk)
    decreases |steps|
  {
    && Here(w, n, k)
    && (steps == [] ||
        (Legal(w, steps[0]) && Untouched(w, steps[0], k) && Stays(Next(w, steps[0]), steps[1..], n, k)))
  }

  lemma {:induction false} StaysRuns(w: World, steps: seq<Step>, n: string, k: Pk)
    requires Stays(w, steps, n, k)
    ensures Run(w, steps) && Here(End(w, steps), n, k)
    decreases |steps|
  {
    if steps != [] {
      StaysRuns(Next(w, steps[0]), steps[1..], n, k);
    }
  }

  /** How often the run dispatches `n`, and when it last did. */
  ghost function Count(w: World, steps: seq<Step>, n: string): nat
    requires Run(w, steps)
    decreases |steps|
  {
    if steps == [] then 0
    else (if Dispatches(w, steps[0], n) then 1 else 0) + Count(Next(w, steps[0]), steps[1..], n)
  }

  ghost function Latest(w: World, steps: seq<Step>, n: string, before: Option<Time>): Option<Time>
    requires Run(w, steps)
    decreases |steps|
  {
    if steps == [] then before
    else Latest(Next(w, steps[0]), steps[1..], n, if Dispatches(w, steps[0], n) then Some(steps[0].t) else before)
  }

  /** The model's run data is either marked unsaved or would be loaded again from the row. */
  ghost predicate Backed(w: World, n: string, k: Pk)
    requires Here(w, n, k)
  {
    var m := w.beat.schedule[n].model;
    && m.row.lastRunAt.Some?
    && (n in w.beat.dirty || k !in w.db.rows || !w.db.rows[k].enabled ||
        RunData(Load(k, w.db.rows[k], 0).model) == RunData(m))
  }

  /** Right after a reload, every entry that is not dirty is backed by its row. */
  lemma ReloadBacks(w: World, s: Step, n: string)
    requires DbOk(w.db) && Legal(w, s) && s.Refresh? && n !in w.beat.dirty && n in Next(w, s).beat.schedule
    ensures var k := Next(w, s).beat.schedule[n].model.pk;
            Here(Next(w, s), n, k) && Backed(Next(w, s), n, k)
  {
    var k := RefreshedFrom(w, s, n);
    LoadIgnoresTime(k, w.db.rows[k], s.q, 0);
  }

  lemma RefreshConserves(w: World, s: Step, n: string, k: Pk)
    requires DbOk(w.db) && Legal(w, s) && s.Refresh?
    requires Here(w, n, k) && Here(Next(w, s), n, k) && Backed(w, n, k)
    ensures Backed(Next(w, s), n, k)
    ensures RunData(Next(w, s).beat.schedule[n].model) == RunData(w.beat.schedule[n].model)
  {
    var j := RefreshedFrom(w, s, n);
    assert j == k;
    assert RowOk(w.db.rows[k]);
    LoadIgnoresTime(k, w.db.rows[k], s.q, 0);
  }

  lemma StoreConserves(w: World, s: Step, n: string, k: Pk)
    requires Inv(w) && Legal(w, s) && s.Store?
    requires Here(w, n, k) && Backed(w, n, k)
    ensures Here(Next(w, s), n, k) && Backed(Next(w, s), n, k)
    ensures Next(w, s).beat.schedule[n] == w.beat.schedule[n]
  {
    hide RowOk, RowsOk, DbOk, BeatOk, Inv, Legal, Next;
    StoreChanges(w, s);
    StoreExact(w, s);
    InvModel(w, n);
    OtherKey(w.beat, w.fetched.value.name, n);
  }

  lemma DispatchConserves(w: World, s: Step, n: string, k: Pk)
    requires Inv(w) && Legal(w, s) && Asks(w, s) && Dispatches(w, s, AskedName(w, s))
    requires Here(w, n, k) && Backed(w, n, k)
    ensures Here(Next(w, s), n, k) && Backed(Next(w, s), n, k)
    ensures RunData(Next(w, s).beat.schedule[n].model) ==
            if Dispatches(w, s, n) then RunData(Advance(w.beat.schedule[n].model, s.t))
            else RunData(w.beat.schedule[n].model)
  {
    hide Judge, Inv, Legal, Next, StartingPoint;
    AskDispatches(w, s);
  }

  lemma VerdictConserves(w: World, s: Step, n: string, k: Pk)
    requires Inv(w) && Legal(w, s) && Asks(w, s) && !Dispatches(w, s, AskedName(w, s))
    requires Here(w, n, k) && Here(Next(w, s), n, k) && Backed(w, n, k)
    ensures Backed(Next(w, s), n, k) && !Dispatches(w, s, n)
    ensures RunData(Next(w, s).beat.schedule[n].model) == RunData(w.beat.schedule[n].model)
  {
    hide Judge, Inv, Legal, Next, StartingPoint, EffectOn, RowsOk, DbOk, RowOk, BeatOk;
    var i := AskedName(w, s);
    AskDoesNotDispatch(w, s);
    VerdictChangesOne(w, s);
    InvModel(w, i);
    EffectKeepsRows(w.db, w.beat.schedule[i].model, VerdictOf(w, s), s.t);
    EffectKeepsEnabled(w.db, w.beat.schedule[i].model, VerdictOf(w, s), s.t);
    OtherKey(w.beat, i, n);
  }

  lemma OtherKey(b: Beat, i: string, n: string)
    requires BeatOk(b) && i in b.schedule && n in b.schedule
    ensures i != n ==> b.schedule[i].model.pk != b.schedule[n].model.pk
  {
  }

  lemma StepConserves(w: World, s: Step, n: string, k: Pk)
    requires Inv(w) && Legal(w, s) && Untouched(w, s, k)
    requires Here(w, n, k) && Here(Next(w, s), n, k) && Backed(w, n, k)
    ensures Backed(Next(w, s), n, k)
    ensures RunData(Next(w, s).beat.schedule[n].model) ==
            if Dispatches(w, s, n) then RunData(Advance(w.beat.schedule[n].model, s.t))
            else RunData(w.beat.schedule[n].model)
  {
    AsksOrNot(w, s);
    assert DbOk(w.db);
    hide RowsOk, DbOk, Inv, Legal, Next, Asks, Judge, Backed, Untouched;
    if s.Refresh? {
      RefreshConserves(w, s, n, k);
    } else if s.Store? {
      StoreConserves(w, s, n, k);
    } else if s.Peek? || s.Check? {
      if Dispatches(w, s, AskedName(w, s)) { DispatchConserves(w, s, n, k); } else { VerdictConserves(w, s, n, k); }
    } else {
      OtherStepConserves(w, s, n, k);
    }
  }

  lemma InstallConserves(w: World, s: Step, n: string, k: Pk)
    requires Legal(w, s) && Untouched(w, s, k) && s.Install? && Here(w, n, k) && Backed(w, n, k)
    ensures Here(Next(w, s), n, k) && Backed(Next(w, s), n, k)
    ensures Next(w, s).beat.schedule[n] == w.beat.schedule[n]
  {
    hide StartingPoint, RowOk;
    if n in s.entries {
      assert false;
    }
  }

  lemma PopulateConserves(w: World, s: Step, n: string, k: Pk)
    requires Legal(w, s) && s.Populate? && Here(w, n, k) && Backed(w, n, k)
    ensures Here(Next(w, s), n, k) && Backed(Next(w, s), n, k)
    ensures Next(w, s).beat.schedule[n] == w.beat.schedule[n]
  {
    hide StartingPoint;
  }

  lemma WhatIsWritten(w: World, s: Step)
    requires Legal(w, s) && s.Write?
    ensures Next(w, s).db.rows == s.rows
  {
  }

  lemma OtherStepConserves(w: World, s: Step, n: string, k: Pk)
    requires Inv(w) && Legal(w, s) && Untouched(w, s, k) && !s.Refresh? && !s.Store? && !s.Peek? && !s.Check?
    requires Here(w, n, k) && Here(Next(w, s), n, k) && Backed(w, n, k)
    ensures Backed(Next(w, s), n, k)
    ensures RunData(Next(w, s).beat.schedule[n].model) == RunData(w.beat.schedule[n].model)
  {
    hide Inv, Legal, Next, Untouched, Backed;
    if s.Install? {
      InstallConserves(w, s, n, k);
    } else if s.Populate? {
      PopulateConserves(w, s, n, k);
    } else {
      StayingConserves(w, s, n, k);
    }
  }

  lemma StayingConserves(w: World, s: Step, n: string, k: Pk)
    requires Legal(w, s) && Untouched(w, s, k) && Here(w, n, k) && Backed(w, n, k)
    requires !s.Refresh? && !s.Store? && !s.Peek? && !s.Check? && !s.Install? && !s.Populate?
    ensures Here(Next(w, s), n, k) && Backed(Next(w, s), n, k)
    ensures Next(w, s).beat.schedule[n] == w.beat.schedule[n]
  {
    hide Legal, Next, StartingPoint;
    ScheduleStays(w, s);
    if s.Write? { WhatIsWritten(w, s); }
  }

  /** Conservation: over any run in which the task stays scheduled and its run data is left alone by others, with
      any reloads and any syncs that fail anywhere, the model's run count grows by exactly the number of
      dispatches, and its last run is the last dispatch, or what it was if there was none. */
  lemma {:induction false} RunDataConserved(w: World, steps: seq<Step>, n: string, k: Pk)
    requires Inv(w) && Run(w, steps) && Stays(w, steps, n, k) && Backed(w, n, k)
    ensures Here(End(w, steps), n, k) && Backed(End(w, steps), n, k)
    ensures var m, m' := w.beat.schedule[n].model, End(w, steps).beat.schedule[n].model;
            && m'.row.totalRunCount == m.row.totalRunCount + Count(w, steps, n)
            && m'.row.lastRunAt == Latest(w, steps, n, m.row.lastRunAt)
    decreases |steps|
  {
    if steps != [] {
      NextKeepsInv(w, steps[0]);
      StepConserves(w, steps[0], n, k);
      RunDataConserved(Next(w, steps[0]), steps[1..], n, k);
    }
  }

  /** A clean entry's row agrees with memory, so after any such run a crash loses at most the dispatches of
      names that are still dirty. */
  lemma CleanMeansSaved(w: World, steps: seq<Step>, n: string, k: Pk)
    requires Inv(w) && Run(w, steps) && Stays(w, steps, n, k) && Backed(w, n, k)
    ensures var e := End(w, steps);
            n !in e.beat.dirty && k in e.db.rows && e.db.rows[k].enabled ==>
              && e.db.rows[k].totalRunCount == w.beat.schedule[n].model.row.totalRunCount + Count(w, steps, n)
              && (e.db.rows[k].lastRunAt.Some? ==>
                    e.db.rows[k].lastRunAt == Latest(w, steps, n, w.beat.schedule[n].model.row.lastRunAt))
  {
    RunDataConserved(w, steps, n, k);
  }

  /** A task that has not run is not shifted by reloads: without a dispatch, its last run in memory is at the
      end what it was at the beginning, however many reloads happened. */
  lemma ReloadsDoNotShift(w: World, steps: seq<Step>, n: string, k: Pk)
    requires Inv(w) && Run(w, steps) && Stays(w, steps, n, k) && Backed(w, n, k)
    requires Count(w, steps, n) == 0
    ensures Here(End(w, steps), n, k)
    ensures End(w, steps).beat.schedule[n].model.row.lastRunAt == w.beat.schedule[n].model.row.lastRunAt
  {
    RunDataConserved(w, steps, n, k);
    NoneLeavesLatest(w, steps, n, w.beat.schedule[n].model.row.lastRunAt);
  }

  lemma {:induction false} NoneLeavesLatest(w: World, steps: seq<Step>, n: string, before: Option<Time>)
    requires Run(w, steps) && Count(w, steps, n) == 0
    ensures Latest(w, steps, n, before) == before
    decreases |steps|
  {
    if steps != [] {
      NoneLeavesLatest(Next(w, steps[0]), steps[1..], n, before);
    }
  }
}
