/** Beat does not trigger its own reloads: saving run data must not move the change timestamp. */
module Quiet {
  import opened Base
  import opened Models
  import opened Entries
  import opened Candidates
  import opened Beats
  import opened Machine
  import opened OneOff

  /** Every unsaved entry in the schedule will be saved without a bump. */
  ghost predicate IsQuiet(w: World) {
    forall n :: n in w.beat.dirty && n in w.beat.schedule ==> w.beat.schedule[n].model.noChanges
  }

  /** A step of beat's own in which no one-off task completes. */
  ghost predicate Undisturbed(w: World, s: Step) {
    Alone(s) && (Asks(w, s) ==> !VerdictOf(w, s).OneOffDone?)
  }

  /** The reload keeps no row whose name is dirty but missing from the schedule. */
  ghost predicate BringsBackNothing(w: World, s: Step) {
    s.Refresh? ==>
      forall k :: k in w.db.rows && Keep(s.filter, w.db.rows[k]) && w.db.rows[k].config.name in w.beat.dirty ==>
        w.db.rows[k].config.name in w.beat.schedule
  }

  /** A reload keeps every unsaved entry quiet if and only if each row that it keeps under a dirty name has an entry
      already: the carry-over moves `no_changes` along, but a name that was dropped while dirty comes back with a
      plain model. */
  lemma ReloadIsQuietExactly(w: World, s: Step)
    requires Legal(w, s) && s.Refresh? && IsQuiet(w)
    ensures IsQuiet(Next(w, s)) <==> BringsBackNothing(w, s)
  {
    RefreshedSchedule(w, s);
    var w' := Next(w, s);
    forall n | n in w.beat.dirty && n in w'.beat.schedule
      ensures w'.beat.schedule[n].model.noChanges <==> n in w.beat.schedule
    {
      var k := RefreshedFrom(w, s, n);
    }
    hide Legal, Next, RowsOk, DbOk, Keep;
    if IsQuiet(w') {
      forall k | k in w.db.rows && Keep(s.filter, w.db.rows[k]) && w.db.rows[k].config.name in w.beat.dirty
        ensures w.db.rows[k].config.name in w.beat.schedule
      {
        RefreshedHas(w, s, k);
      }
    }
    if BringsBackNothing(w, s) {
      forall n | n in w'.beat.dirty && n in w'.beat.schedule ensures w'.beat.schedule[n].model.noChanges {
        var k := RefreshedFrom(w, s, n);
      }
    }
  }

  /** And then the next save of that name bumps the timestamp, with nobody else writing. */
  lemma NoisySaveBumps(w: World, s: Step)
    requires Inv(w) && Legal(w, s) && s.Store?
    ensures Next(w, s).db.lastUpdate ==
            if w.beat.schedule[w.fetched.value.name].model.noChanges then w.db.lastUpdate else Some(s.t)
  {
    hide RowsOk, DbOk, RowOk, BeatOk, Legal, Next;
    StoreChanges(w, s);
    StoreExact(w, s);
  }

  lemma DispatchIsQuiet(w: World, s: Step)
    requires Legal(w, s) && Asks(w, s) && IsQuiet(w) && Dispatches(w, s, AskedName(w, s))
    ensures IsQuiet(Next(w, s)) && Next(w, s).db.lastUpdate == w.db.lastUpdate
    ensures Next(w, s).beat.lastTimestamp == w.beat.lastTimestamp
  {
    hide Legal, Next, Judge;
    AskDispatches(w, s);
  }

  lemma EffectIsQuiet(db: Db, m: Model, v: Verdict, now: Time)
    requires EffectOn(db, m, v, now).Ok? && !v.OneOffDone?
    ensures var (db', m') := EffectOn(db, m, v, now).value;
            db'.lastUpdate == db.lastUpdate && (m' == m || m'.noChanges)
  {
  }

  lemma VerdictIsQuiet(w: World, s: Step)
    requires Inv(w) && Legal(w, s) && Asks(w, s) && Undisturbed(w, s) && IsQuiet(w)
    requires !Dispatches(w, s, AskedName(w, s))
    ensures IsQuiet(Next(w, s)) && Next(w, s).db.lastUpdate == w.db.lastUpdate
    ensures Next(w, s).beat.lastTimestamp == w.beat.lastTimestamp
  {
    hide Legal, Next, Judge, Dispatches, EffectOn, Inv;
    AskDoesNotDispatch(w, s);
    EffectIsQuiet(w.db, w.beat.schedule[AskedName(w, s)].model, VerdictOf(w, s), s.t);
  }

  lemma StoreIsQuiet(w: World, s: Step)
    requires Inv(w) && Legal(w, s) && IsQuiet(w) && s.Store?
    ensures IsQuiet(Next(w, s)) && Next(w, s).db.lastUpdate == w.db.lastUpdate
    ensures Next(w, s).beat.lastTimestamp == w.beat.lastTimestamp
  {
    hide Inv, Legal, Next;
    StoreChanges(w, s);
    NoisySaveBumps(w, s);
  }

  lemma AccessIsQuiet(w: World, s: Step)
    requires Inv(w) && Legal(w, s) && IsQuiet(w) && s.Access?
    ensures IsQuiet(Next(w, s)) && Next(w, s).db.lastUpdate == w.db.lastUpdate
    ensures !Newer(w.db.lastUpdate, w.beat.lastTimestamp) ==>
              !Newer(w.db.lastUpdate, Next(w, s).beat.lastTimestamp)
  {
    hide RowsOk, DbOk, BeatOk;
  }

  lemma OtherStepIsQuiet(w: World, s: Step)
    requires Legal(w, s) && IsQuiet(w) && (s.Fetch? || s.GiveUp? || s.Compare? || s.Populate?)
    ensures IsQuiet(Next(w, s)) && Next(w, s).db.lastUpdate == w.db.lastUpdate
    ensures Next(w, s).beat.lastTimestamp == w.beat.lastTimestamp
  {
  }

  lemma RefreshIsQuiet(w: World, s: Step)
    requires Inv(w) && Legal(w, s) && IsQuiet(w) && s.Refresh? && BringsBackNothing(w, s)
    ensures IsQuiet(Next(w, s)) && Next(w, s).db.lastUpdate == w.db.lastUpdate
    ensures Next(w, s).beat.lastTimestamp == w.beat.lastTimestamp
  {
    ReloadIsQuietExactly(w, s);
    hide IsQuiet, BringsBackNothing, Merge, Fresh;
  }

  lemma NextIsQuiet(w: World, s: Step)
    requires Inv(w) && Legal(w, s) && IsQuiet(w) && Undisturbed(w, s) && BringsBackNothing(w, s)
    ensures IsQuiet(Next(w, s)) && Next(w, s).db.lastUpdate == w.db.lastUpdate
    ensures !Newer(w.db.lastUpdate, w.beat.lastTimestamp) ==>
              !Newer(w.db.lastUpdate, Next(w, s).beat.lastTimestamp)
  {
    AsksOrNot(w, s);
    assert Alone(s);
    hide Inv, Legal, Next, Asks, IsQuiet, BringsBackNothing, Undisturbed, Dispatches;
    if s.Refresh? {
      RefreshIsQuiet(w, s);
    } else if s.Store? {
      StoreIsQuiet(w, s);
    } else if s.Access? {
      AccessIsQuiet(w, s);
    } else if s.Peek? || s.Check? {
      if Dispatches(w, s, AskedName(w, s)) { DispatchIsQuiet(w, s); } else { VerdictIsQuiet(w, s); }
    } else {
      OtherStepIsQuiet(w, s);
    }
  }

  ghost predicate AllUndisturbed(w: World, steps: seq<Step>)
    requires Run(w, steps)
    decreases |steps|
  {
    steps == [] ||
    (Undisturbed(w, steps[0]) && BringsBackNothing(w, steps[0]) && AllUndisturbed(Next(w, steps[0]), steps[1..]))
  }

  /** No self-triggered reload: over any run of beat's own steps, with dispatches, syncs that fail anywhere,
      forced reloads and expiring tasks, the change timestamp stays where it is, and a poll at the end, hence
      every poll of the run, does not report a change. */
  lemma {:induction false} NoSelfTriggeredReload(w: World, steps: seq<Step>, fails: bool)
    requires Inv(w) && IsQuiet(w) && !Newer(w.db.lastUpdate, w.beat.lastTimestamp)
    requires Run(w, steps) && AllUndisturbed(w, steps)
    ensures var e := End(w, steps);
            && IsQuiet(e) && e.db.lastUpdate == w.db.lastUpdate
            && !ScheduleChanged(e.beat.lastTimestamp, PollOf(e, fails))
    decreases |steps|
  {
    if steps != [] {
      NextKeepsInv(w, steps[0]);
      NextIsQuiet(w, steps[0]);
      NoSelfTriggeredReload(Next(w, steps[0]), steps[1..], fails);
    }
  }

  /******* A reload that beat brings about itself *******/

  /** A read can be written at once. */
  lemma StoreAfterFetch(w: World, n: string, t: Time)
    requires Inv(w) && w.fetched.None? && t >= w.clock
    requires n in w.beat.dirty && n in w.beat.schedule && w.beat.schedule[n].model.pk in w.db.rows
    ensures Legal(w, Fetch(n))
    ensures Next(w, Fetch(n)) == w.(fetched := Some(Fetched(n, w.db.rows[w.beat.schedule[n].model.pk])))
    ensures Legal(Next(w, Fetch(n)), Store(t))
  {
    hide FullSave, RowOk, BeatOk;
    var m := w.beat.schedule[n].model;
    assert RowOk(w.db.rows[m.pk]);
    SaveBetweenReadAndWrite(w.db, m.pk, w.db.rows[m.pk], m.row.lastRunAt, m.row.totalRunCount, m.noChanges, t);
  }

  lemma SaveOfRow(w: World, n: string, t: Time) returns (e: World)
    requires Inv(w) && w.fetched.None? && t >= w.clock
    requires n in w.beat.dirty && n in w.beat.schedule && w.beat.schedule[n].model.pk in w.db.rows
    requires !w.beat.schedule[n].model.noChanges
    ensures Run(w, [Fetch(n), Store(t)]) && e == End(w, [Fetch(n), Store(t)])
    ensures e.db.lastUpdate == Some(t) && e.beat.lastTimestamp == w.beat.lastTimestamp && Idle(e) == w.updating.None?
    ensures e.beat.initialRead == w.beat.initialRead && e.clock == t
  {
    hide Inv, Legal, Next, RowsOk, DbOk, RowOk;
    StoreAfterFetch(w, n, t);
    NextKeepsInv(w, Fetch(n));
    var w1 := Next(w, Fetch(n));
    StoreChanges(w1, Store(t));
    NoisySaveBumps(w1, Store(t));
    e := Next(w1, Store(t));
    RunCons(w1, Store(t), []);
    RunCons(w, Fetch(n), [Store(t)] + []);
    assert [Fetch(n)] + ([Store(t)] + []) == [Fetch(n), Store(t)];
  }

  /** The dirty name that one reload drops and a later one brings back makes beat reload once more: its save moves
      the timestamp, and the next poll reports a change, with nobody else writing. */
  lemma DroppedMakesNoise(w: World, n: string, k: Pk, drop: Step, a: Time, load: Step, t: Time)
      returns (steps: seq<Step>, e: World)
    requires Inv(w) && k in w.db.rows && w.db.rows[k].config.name == n && n in w.beat.dirty
    requires drop.Refresh? && Legal(w, drop) && !Keep(drop.filter, w.db.rows[k])
    requires a >= drop.q && a - w.beat.lastFullSync >= SYNC_MAX_INTERVAL && !w.beat.initialRead
    requires load.Refresh? && load.q >= a && load.filter.cutoff == load.q + SYNC_MAX_INTERVAL
    requires Keep(load.filter, w.db.rows[k])
    requires w.beat.lastTimestamp.Some? && t >= load.q && t > w.beat.lastTimestamp.value
    ensures Run(w, steps) && End(w, steps) == e && forall i :: 0 <= i < |steps| ==> Alone(steps[i])
    ensures Idle(e) && ScheduleChanged(e.beat.lastTimestamp, PollOf(e, false))
    ensures Decide(e.beat, t, PollOf(e, false)) == Decision.Reload(false)
  {
    hide Inv, Next, Run, End, Keep, Runs;
    var v := DroppedComesBack(w, n, k, drop, a, load);
    var first := [drop, Access(a, true), load];
    RunKeepsInv(w, first);
    e := SaveOfRow(v, n, t);
    var rest := [Fetch(n), Store(t)];
    RunsTogether(w, first, rest, k);
    steps := first + rest;
  }
}
