/** One-off tasks run at most once per enabling. */
module OneOff {
  import opened Base
  import opened Models
  import opened Entries
  import opened Candidates
  import opened Beats
  import opened Machine
  import opened Heaps

  /** The step dispatches the task of row `k`. */
  ghost predicate DispatchesRow(w: World, s: Step, k: Pk) {
    s.Check? && Asks(w, s) && Dispatches(w, s, AskedName(w, s)) && w.beat.schedule[AskedName(w, s)].model.pk == k
  }

  /** Row `k` is a one-off task called `n`, in the table, in memory and in a save under way, and beat has not
      disabled it in memory without disabling the row. */
  ghost predicate IsOneOff(w: World, n: string, k: Pk) {
    && k in w.db.rows && w.db.rows[k].config.oneOff && w.db.rows[k].config.name == n
    && (n in w.beat.schedule ==> w.beat.schedule[n].model.pk == k)
    && (forall i :: i in w.beat.schedule && w.beat.schedule[i].model.pk == k ==> i == n)
    && (n in w.beat.schedule ==> w.beat.schedule[n].model.row.config.oneOff)
    && (n in w.beat.schedule && !w.beat.schedule[n].model.row.enabled ==> !w.db.rows[k].enabled)
    && (w.fetched.Some? && w.fetched.value.name == n && n in w.beat.schedule ==>
          var read := w.fetched.value.row;
          && read.config.oneOff && read.config.name == n
          && (!w.beat.schedule[n].model.row.enabled ==> !read.enabled))
  }

  ghost predicate InMemory(w: World, n: string, k: Pk) {
    n in w.beat.schedule && w.beat.schedule[n].model.pk == k
  }

  /** The task has run: the one-off guard will stop it in memory, and the row, or the unsaved run data, will
      stop it after a reload. */
  ghost predicate Spent(w: World, n: string, k: Pk) {
    && (InMemory(w, n, k) ==>
          w.beat.schedule[n].model.row.enabled ==> w.beat.schedule[n].model.row.totalRunCount > 0)
    && (k in w.db.rows && w.db.rows[k].enabled ==> w.db.rows[k].totalRunCount > 0 || Unsaved(w, n, k))
  }

  /** The run is counted in memory only. */
  ghost predicate Unsaved(w: World, n: string, k: Pk) {
    InMemory(w, n, k) && n in w.beat.dirty && w.beat.schedule[n].model.row.totalRunCount > 0
  }

  /** A reload that does not drop an entry whose run is counted in memory only. */
  ghost predicate KeepsUnsaved(w: World, s: Step, n: string, k: Pk) {
    s.Refresh? && Unsaved(w, n, k) && k in w.db.rows && w.db.rows[k].enabled && w.db.rows[k].totalRunCount == 0 ==>
      Keep(s.filter, w.db.rows[k])
  }

  lemma RefreshKeepsOneOff(w: World, s: Step, n: string, k: Pk)
    requires Legal(w, s) && s.Refresh? && IsOneOff(w, n, k)
    ensures IsOneOff(Next(w, s), n, k)
  {
    var w' := Next(w, s);
    RefreshedSchedule(w, s);
    forall i | i in w'.beat.schedule && w'.beat.schedule[i].model.pk == k
      ensures i == n
    {
      var j := RefreshedFrom(w, s, i);
    }
    if n in w'.beat.schedule {
      RefreshedKey(w, s, n, k);
      var j := RefreshedFrom(w, s, n);
    }
  }

  /** What a reload leaves of row `k`: an entry exactly if the filter keeps the row, with the unsaved run
      count if there is one. */
  lemma Reloaded(w: World, s: Step, n: string, k: Pk)
    requires Legal(w, s) && s.Refresh? && (k in w.db.rows ==> w.db.rows[k].config.name == n)
    ensures var w' := Next(w, s);
            && w'.db == w.db && w'.beat.dirty == w.beat.dirty
            && (InMemory(w', n, k) <==> k in w.db.rows && Keep(s.filter, w.db.rows[k]))
            && (InMemory(w', n, k) ==>
                  && w'.beat.schedule[n].model.row.enabled
                  && w'.beat.schedule[n].model.row.totalRunCount ==
                       if n in w.beat.dirty && n in w.beat.schedule
                       then w.beat.schedule[n].model.row.totalRunCount else w.db.rows[k].totalRunCount)
  {
    RefreshedSchedule(w, s);
    if k in w.db.rows && Keep(s.filter, w.db.rows[k]) {
      RefreshedHas(w, s, k);
      RefreshedKey(w, s, n, k);
    }
    if InMemory(Next(w, s), n, k) {
      var j := RefreshedFrom(w, s, n);
    }
  }

  /** A reload keeps a spent one-off task spent exactly when it does not drop the only record of its run. */
  lemma ReloadKeepsSpentExactly(w: World, s: Step, n: string, k: Pk)
    requires Legal(w, s) && s.Refresh? && IsOneOff(w, n, k) && Spent(w, n, k)
    ensures Spent(Next(w, s), n, k) <==> KeepsUnsaved(w, s, n, k)
  {
    Reloaded(w, s, n, k);
    var w' := Next(w, s);
    if k in w.db.rows && w.db.rows[k].enabled && w.db.rows[k].totalRunCount == 0 {
      assert Unsaved(w, n, k);
      assert Unsaved(w', n, k) <==> Keep(s.filter, w.db.rows[k]);
    }
  }

  lemma StoreKeepsOneOff(w: World, s: Step, n: string, k: Pk)
    requires Inv(w) && Legal(w, s) && s.Store? && IsOneOff(w, n, k)
    ensures IsOneOff(Next(w, s), n, k)
    ensures Spent(w, n, k) ==> Spent(Next(w, s), n, k)
  {
    hide RowOk, RowsOk, DbOk, Inv, Legal, Next;
    StoreExact(w, s);
    StoreChanges(w, s);
  }

  lemma SpentIsNotDispatched(w: World, s: Step, n: string, k: Pk)
    requires Inv(w) && Legal(w, s) && IsOneOff(w, n, k) && Spent(w, n, k)
    ensures !DispatchesRow(w, s, k)
  {
  }

  lemma DispatchKeepsOneOff(w: World, s: Step, n: string, k: Pk)
    requires Inv(w) && Legal(w, s) && Asks(w, s) && IsOneOff(w, n, k) && Dispatches(w, s, AskedName(w, s))
    ensures IsOneOff(Next(w, s), n, k)
    ensures Spent(w, n, k) || DispatchesRow(w, s, k) ==> Spent(Next(w, s), n, k)
  {
    hide Judge, Inv, Legal, Next;
    AskDispatches(w, s);
  }

  /** What a verdict without a dispatch does: nothing, or the asked task is disabled in memory and in the table. */
  ghost predicate Disabling(w: World, w': World, n: string, k: Pk) {
    && n in w.beat.schedule && n in w'.beat.schedule && w'.beat.dirty == w.beat.dirty && w'.fetched.None?
    && (forall j :: j in w.db.rows ==> j in w'.db.rows)
    && (forall j :: j in w.db.rows && j != k ==> w'.db.rows[j] == w.db.rows[j])
    && ((w'.db == w.db && w'.beat.schedule == w.beat.schedule)
        || (!w'.beat.schedule[n].model.row.enabled && k in w'.db.rows && !w'.db.rows[k].enabled))
    && (k in w.db.rows ==> SameColumns(w'.db.rows[k].config, w.beat.schedule[n].model.row.config)
                           || w'.db.rows[k].config == w.db.rows[k].config)
  }

  lemma VerdictDisables(w: World, s: Step)
    requires Inv(w) && Legal(w, s) && Asks(w, s) && !Dispatches(w, s, AskedName(w, s))
    ensures Disabling(w, Next(w, s), AskedName(w, s), w.beat.schedule[AskedName(w, s)].model.pk)
  {
    hide Judge, RowsOk, DbOk, RowOk, Inv, Legal, Next, EffectOn;
    var n := AskedName(w, s);
    var m := w.beat.schedule[n].model;
    AskDoesNotDispatch(w, s);
    InvModel(w, n);
    EffectKeepsRows(w.db, m, VerdictOf(w, s), s.t);
    EffectDisables(w.db, m, VerdictOf(w, s), s.t);
    assert w.beat.schedule[n := w.beat.schedule[n].(model := m)] == w.beat.schedule;
  }

  lemma VerdictKeepsOneOff(w: World, s: Step, n: string, k: Pk)
    requires Inv(w) && Legal(w, s) && Asks(w, s) && IsOneOff(w, n, k) && !Dispatches(w, s, AskedName(w, s))
    ensures IsOneOff(Next(w, s), n, k)
    ensures Spent(w, n, k) ==> Spent(Next(w, s), n, k)
  {
    hide Judge, RowsOk, DbOk, RowOk, Inv, Legal, Next, Dispatches, BeatOk;
    InvModel(w, AskedName(w, s));
    VerdictDisables(w, s);
    VerdictChangesOne(w, s);
  }

  /** A verdict with an effect disables the task in memory and in the table. */
  lemma EffectDisables(db: Db, m: Model, v: Verdict, now: Time)
    requires RowOk(m.row) && EffectOn(db, m, v, now).Ok?
    ensures var (db', m') := EffectOn(db, m, v, now).value;
            || (db' == db && m' == m)
            || (!m'.row.enabled && m.pk in db'.rows && !db'.rows[m.pk].enabled)
    ensures var (db', m') := EffectOn(db, m, v, now).value;
            m.pk in db'.rows ==>
              || SameColumns(db'.rows[m.pk].config, m.row.config)
              || (m.pk in db.rows && db'.rows[m.pk].config == db.rows[m.pk].config)
  {
  }

  /** An external write that does not enable, rename or remove row `k`, does not make it a recurring task, and
      does not set a run count back to zero; and setup installs no entry for it. */
  ghost predicate Tolerable(w: World, s: Step, n: string, k: Pk) {
    && (s.Write? && k in w.db.rows ==>
          && k in s.rows
          && s.rows[k].config.name == w.db.rows[k].config.name && s.rows[k].config.oneOff
          && (s.rows[k].enabled ==> w.db.rows[k].enabled)
          && (w.db.rows[k].totalRunCount > 0 ==> s.rows[k].totalRunCount > 0))
    && (s.Install? ==> n !in s.entries && forall i :: i in s.entries ==> s.entries[i].model.pk != k)
  }

  lemma InstallKeepsOneOff(w: World, s: Step, n: string, k: Pk)
    requires Legal(w, s) && s.Install? && Tolerable(w, s, n, k) && IsOneOff(w, n, k)
    ensures IsOneOff(Next(w, s), n, k)
    ensures Spent(w, n, k) ==> Spent(Next(w, s), n, k)
  {
    hide RowOk;
  }

  lemma WriteKeepsOneOff(w: World, s: Step, n: string, k: Pk)
    requires Legal(w, s) && s.Write? && Tolerable(w, s, n, k) && IsOneOff(w, n, k)
    ensures IsOneOff(Next(w, s), n, k)
    ensures Spent(w, n, k) ==> Spent(Next(w, s), n, k)
  {
    hide RowsOk, DbOk;
  }

  lemma FetchKeepsOneOff(w: World, s: Step, n: string, k: Pk)
    requires Legal(w, s) && s.Fetch? && IsOneOff(w, n, k)
    ensures IsOneOff(Next(w, s), n, k)
    ensures Spent(w, n, k) ==> Spent(Next(w, s), n, k)
  {
  }

  lemma RefreshKeepsSpent(w: World, s: Step, n: string, k: Pk)
    requires Legal(w, s) && s.Refresh? && KeepsUnsaved(w, s, n, k) && IsOneOff(w, n, k)
    ensures IsOneOff(Next(w, s), n, k)
    ensures Spent(w, n, k) ==> Spent(Next(w, s), n, k)
  {
    hide Legal, Next, IsOneOff, Spent, KeepsUnsaved;
    RefreshKeepsOneOff(w, s, n, k);
    if Spent(w, n, k) { ReloadKeepsSpentExactly(w, s, n, k); }
  }

  lemma PlainKeepsSpent(w: World, s: Step, n: string, k: Pk)
    requires Legal(w, s) && IsOneOff(w, n, k)
    requires s.Finish? || s.Bump? || s.Access? || s.GiveUp? || s.Compare? || s.Populate?
    ensures IsOneOff(Next(w, s), n, k)
    ensures Spent(w, n, k) ==> Spent(Next(w, s), n, k)
  {
    hide Legal, Next;
    if s.Populate? {
      PopulateChanges(w, s);
    } else {
      ScheduleStays(w, s);
      if s.GiveUp? { GivenUp(w, s); }
    }
  }

  lemma GivenUp(w: World, s: Step)
    requires Legal(w, s) && s.GiveUp?
    ensures Next(w, s).fetched.None?
  {
  }

  lemma NextKeepsSpent(w: World, s: Step, n: string, k: Pk)
    requires Inv(w) && Legal(w, s) && Tolerable(w, s, n, k) && KeepsUnsaved(w, s, n, k) && IsOneOff(w, n, k)
    ensures IsOneOff(Next(w, s), n, k)
    ensures Spent(w, n, k) || DispatchesRow(w, s, k) ==> Spent(Next(w, s), n, k)
  {
    AsksOrNot(w, s);
    assert DispatchesRow(w, s, k) ==> s.Check?;
    hide Inv, Legal, Next, Asks, IsOneOff, Spent, KeepsUnsaved, Tolerable, DispatchesRow;
    match s
    case Refresh(_, _) => RefreshKeepsSpent(w, s, n, k);
    case Write(_, _) => WriteKeepsOneOff(w, s, n, k);
    case Install(_) => InstallKeepsOneOff(w, s, n, k);
    case Fetch(_) => FetchKeepsOneOff(w, s, n, k);
    case Store(_) => StoreKeepsOneOff(w, s, n, k);
    case Peek(_, _, _) => AskKeepsOneOff(w, s, n, k);
    case Check(_, _, _) => AskKeepsOneOff(w, s, n, k);
    case _ => PlainKeepsSpent(w, s, n, k);
  }

  lemma AskKeepsOneOff(w: World, s: Step, n: string, k: Pk)
    requires Inv(w) && Legal(w, s) && Asks(w, s) && IsOneOff(w, n, k)
    ensures IsOneOff(Next(w, s), n, k)
    ensures Spent(w, n, k) || DispatchesRow(w, s, k) ==> Spent(Next(w, s), n, k)
  {
    if Dispatches(w, s, AskedName(w, s)) { DispatchKeepsOneOff(w, s, n, k); } else { VerdictKeepsOneOff(w, s, n, k); }
    hide Inv, Legal, Next, IsOneOff, Spent;
  }

  /** Nobody else enables the task or resets its count during the run, and no reload drops unsaved run data. */
  ghost predicate Guarded(w: World, steps: seq<Step>, n: string, k: Pk)
    requires Run(w, steps)
    decreases |steps|
  {
    steps == [] ||
    (Tolerable(w, steps[0], n, k) && KeepsUnsaved(w, steps[0], n, k) && Guarded(Next(w, steps[0]), steps[1..], n, k))
  }

  ghost function Runs(w: World, steps: seq<Step>, k: Pk): nat
    requires Run(w, steps)
    decreases |steps|
  {
    if steps == [] then 0
    else (if DispatchesRow(w, steps[0], k) then 1 else 0) + Runs(Next(w, steps[0]), steps[1..], k)
  }

  lemma {:induction false} SpentStaysSpent(w: World, steps: seq<Step>, n: string, k: Pk)
    requires Inv(w) && IsOneOff(w, n, k) && Spent(w, n, k)
    requires Run(w, steps) && Guarded(w, steps, n, k)
    ensures Runs(w, steps, k) == 0
    decreases |steps|
  {
    if steps != [] {
      SpentIsNotDispatched(w, steps[0], n, k);
      NextKeepsSpent(w, steps[0], n, k);
      NextKeepsInv(w, steps[0]);
      SpentStaysSpent(Next(w, steps[0]), steps[1..], n, k);
    }
  }

  /** Per enabling, a one-off task of any schedule type is dispatched at most once, over every run with any
      reloads, any failed syncs and any other edits of its row, as long as no reload drops its unsaved entry. */
  lemma {:induction false} AtMostOnce(w: World, steps: seq<Step>, n: string, k: Pk)
    requires Inv(w) && IsOneOff(w, n, k)
    requires Run(w, steps) && Guarded(w, steps, n, k)
    ensures Runs(w, steps, k) <= 1
    decreases |steps|
  {
    if steps != [] {
      NextKeepsSpent(w, steps[0], n, k);
      NextKeepsInv(w, steps[0]);
      if DispatchesRow(w, steps[0], k) {
        SpentStaysSpent(Next(w, steps[0]), steps[1..], n, k);
      } else {
        AtMostOnce(Next(w, steps[0]), steps[1..], n, k);
      }
    }
  }

  /******* Why the condition is needed *******/

  /** A run in two parts, and how often it dispatches. */
  lemma {:induction false} RunsTogether(w: World, a: seq<Step>, b: seq<Step>, k: Pk)
    requires Run(w, a) && Run(End(w, a), b)
    ensures Run(w, a + b) && End(w, a + b) == End(End(w, a), b)
    ensures Runs(w, a + b, k) == Runs(w, a, k) + Runs(End(w, a), b, k)
    decreases |a|
  {
    if a == [] {
      assert a + b == b;
    } else {
      RunsTogether(Next(w, a[0]), a[1..], b, k);
      assert (a + b)[1..] == a[1..] + b;
    }
  }

  /** Beat alone gets from `w` to `e` by the given steps, which dispatch row `k` the given number of times. */
  ghost predicate Gets(w: World, steps: seq<Step>, e: World, k: Pk, runs: nat) {
    && Run(w, steps) && End(w, steps) == e && Runs(w, steps, k) == runs
    && forall i :: 0 <= i < |steps| ==> Alone(steps[i])
  }

  lemma GetsOn(w: World, a: seq<Step>, e: World, k: Pk, runs: nat, b: seq<Step>, e': World, more: nat)
    requires Gets(w, a, e, k, runs) && Gets(e, b, e', k, more)
    ensures Gets(w, a + b, e', k, runs + more)
  {
    RunsTogether(w, a, b, k);
  }

  lemma GetsNext(w: World, a: seq<Step>, e: World, k: Pk, runs: nat, s: Step)
    requires Gets(w, a, e, k, runs) && Legal(e, s) && Alone(s)
    ensures Gets(w, a + [s], Next(e, s), k, runs + if DispatchesRow(e, s, k) then 1 else 0)
  {
    hide Legal, Next, DispatchesRow;
    RunCons(e, s, []);
    assert [s] + [] == [s];
    RunsTogether(w, a, [s], k);
  }

  lemma GetsNowhere(w: World, k: Pk)
    ensures Gets(w, [], w, k, 0)
  {
  }

  lemma {:induction false} OnlyChecksRun(w: World, steps: seq<Step>, k: Pk)
    requires Run(w, steps) && forall i :: 0 <= i < |steps| ==> !steps[i].Check?
    ensures Runs(w, steps, k) == 0
    decreases |steps|
  {
    if steps != [] {
      OnlyChecksRun(Next(w, steps[0]), steps[1..], k);
    }
  }

  /** A reload that drops a dirty entry, and a later one, forced after 300 seconds, that brings the row back: the
      new entry has the row's run data, is not marked `no_changes`, and its name is still dirty. */
  lemma DroppedComesBack(w: World, n: string, k: Pk, drop: Step, a: Time, load: Step) returns (e: World)
    requires Inv(w) && k in w.db.rows && w.db.rows[k].config.name == n
    requires drop.Refresh? && Legal(w, drop) && !Keep(drop.filter, w.db.rows[k])
    requires a >= drop.q && a - w.beat.lastFullSync >= SYNC_MAX_INTERVAL && !w.beat.initialRead
    requires load.Refresh? && load.q >= a && load.filter.cutoff == load.q + SYNC_MAX_INTERVAL
    requires Keep(load.filter, w.db.rows[k])
    ensures Run(w, [drop, Access(a, true), load]) && e == End(w, [drop, Access(a, true), load])
    ensures InMemory(e, n, k) && e.clock == load.q && e.db == w.db
    ensures e.beat.schedule[n] == Load(k, w.db.rows[k], load.q)
    ensures e.beat.dirty == w.beat.dirty && e.beat.lastTimestamp == w.beat.lastTimestamp
    ensures e.beat.heap.Some? && e.beat.heapInvalidated && Idle(e) && e.rebuilding == w.rebuilding
    ensures !e.beat.initialRead
  {
    hide Merge, Fresh, Merged, RowOk, Keep;
    var w1 := Next(w, drop);
    RefreshedSchedule(w, drop);
    if n in w1.beat.schedule {
      var i := RefreshedFrom(w, drop, n);
      assert false;
    }
    var w2 := Next(w1, Access(a, true));
    Reloaded(w2, load, n, k);
    e := Next(w2, load);
    var j := RefreshedFrom(w2, load, n);
    RefreshedKey(w2, load, n, k);
    RunCons(w2, load, []);
    RunCons(w1, Access(a, true), [load] + []);
    RunCons(w, drop, [Access(a, true)] + ([load] + []));
    assert [drop] + ([Access(a, true)] + ([load] + [])) == [drop, Access(a, true), load];
  }

  lemma {:induction false} ListingOf(names: set<string>) returns (order: seq<string>)
    ensures Listing(order, names)
    decreases |names|
  {
    if names == {} {
      order := [];
    } else {
      var n :| n in names;
      var rest := ListingOf(names - {n});
      order := rest + [n];
    }
  }

  /** After a reload, a comparison, a rebuild and a check dispatch an entry that is due. */
  lemma RebuiltRuns(w: World, n: string, k: Pk, t: Time, answer: Answer) returns (steps: seq<Step>, e: World)
    requires Idle(w) && !w.rebuilding && !w.beat.initialRead && w.beat.heap.Some? && w.beat.heapInvalidated
    requires InMemory(w, n, k) && w.clock <= t
    requires Fires(Judge(w.beat.schedule[n].model, w.beat.schedule[n].own, t, answer))
    ensures Gets(w, steps, e, k, 1)
  {
    GetsNowhere(w, k);
    FlagForcesRebuild(w);
    var order := ListingOf(w.beat.schedule.Keys);
    var i :| 0 <= i < |order| && order[i] == n;
    var flagged := Next(w, Compare(true));
    var built := RebuildAndCheck(flagged, order, i, t, answer);
    assert DispatchesRow(built, Check(i, t, answer), k);
    hide Gets, Legal, Next, Judge;
    GetsNext(w, [], w, k, 0, Compare(true));
    GetsNext(w, [] + [Compare(true)], flagged, k, 0, Populate(order));
    GetsNext(w, [] + [Compare(true)] + [Populate(order)], built, k, 0, Check(i, t, answer));
    steps := [] + [Compare(true)] + [Populate(order)] + [Check(i, t, answer)];
    e := Next(built, Check(i, t, answer));
  }

  /** Without that condition the task does run again: a crontab task whose one run is counted in memory only is
      dropped by one reload, brought back by a later one, and dispatched a second time by the next rebuild and
      check for which its crontab is due, with nobody else writing. */
  lemma DroppedRunsTwice(w: World, n: string, k: Pk, drop: Step, a: Time, load: Step, t: Time, answer: Answer)
      returns (steps: seq<Step>, e: World)
    requires Inv(w) && IsOneOff(w, n, k) && w.db.rows[k].enabled && w.db.rows[k].totalRunCount == 0
    requires Unsaved(w, n, k) && !w.rebuilding
    requires drop.Refresh? && Legal(w, drop) && !Keep(drop.filter, w.db.rows[k])
    requires a >= drop.q && a - w.beat.lastFullSync >= SYNC_MAX_INTERVAL && !w.beat.initialRead
    requires load.Refresh? && load.q >= a && load.filter.cutoff == load.q + SYNC_MAX_INTERVAL
    requires Keep(load.filter, w.db.rows[k])
    requires var c := w.db.rows[k].config;
             && c.crontab.Some? && answer.state.isDue && load.q <= t
             && (c.startTime.Some? ==> c.startTime.value <= t) && (c.expires.Some? ==> t < c.expires.value)
    ensures Gets(w, steps, e, k, 1)
  {
    var reloaded := DroppedComesBack(w, n, k, drop, a, load);
    var first := [drop, Access(a, true), load];
    OnlyChecksRun(w, first, k);
    assert Gets(w, first, reloaded, k, 0);
    assert RowOk(w.db.rows[k]);
    hide Gets, Legal, Next, Run, End, Inv, Keep;
    var rest;
    rest, e := RebuiltRuns(reloaded, n, k, t, answer);
    GetsOn(w, first, reloaded, k, 0, rest, e, 1);
    steps := first + rest;
  }
}
