/** The heap: only live entries are checked, none is forgotten, and an interval task is not dispatched twice within
    its period unless the heap is rebuilt, within that period, from an entry that is behind its model. */
module Heaps {
  import opened Base
  import opened Models
  import opened Entries
  import opened Beats
  import opened Machine
  import opened Conservation

  /******* Every name has its item *******/

  ghost predicate HeapCovers(b: Beat) {
    b.heap.Some? && forall n :: n in b.schedule ==> exists i :: 0 <= i < |b.heap.value| && b.heap.value[i].name == n
  }

  /** Until the heap is first built, or while a rebuild is flagged or under way, nothing is promised;
      otherwise every scheduled name is in the heap. */
  ghost predicate Covered(w: World) {
    w.beat.heap.None? || w.beat.heapInvalidated || w.rebuilding || HeapCovers(w.beat)
  }

  lemma PopulateCovers(w: World, s: Step)
    requires Legal(w, s) && s.Populate?
    ensures HeapCovers(Next(w, s).beat)
  {
    var b := Next(w, s).beat;
    forall n | n in b.schedule
      ensures exists i :: 0 <= i < |b.heap.value| && b.heap.value[i].name == n
    {
      assert n in s.order;
      var i :| 0 <= i < |s.order| && s.order[i] == n;
      assert b.heap.value[i].name == n;
    }
  }

  lemma SameNamesCover(b: Beat, b': Beat)
    requires HeapCovers(b) && b'.schedule.Keys == b.schedule.Keys && b'.heap.Some?
    requires |b'.heap.value| == |b.heap.value|
    requires forall i :: 0 <= i < |b.heap.value| ==> b'.heap.value[i].name == b.heap.value[i].name
    ensures HeapCovers(b')
  {
    forall n | n in b'.schedule
      ensures exists i :: 0 <= i < |b'.heap.value| && b'.heap.value[i].name == n
    {
      var i :| 0 <= i < |b.heap.value| && b.heap.value[i].name == n;
      assert b'.heap.value[i].name == n;
    }
  }

  lemma AskKeepsCovered(w: World, s: Step)
    requires Inv(w) && Legal(w, s) && Asks(w, s) && Covered(w)
    ensures Covered(Next(w, s))
  {
    hide Inv, Legal, Next, HeapCovers;
    AskChangesOne(w, s);
    if HeapCovers(w.beat) {
      HeapIsThere(w.beat);
      SameNamesCover(w.beat, Next(w, s).beat);
    }
  }

  lemma HeapIsThere(b: Beat)
    requires HeapCovers(b)
    ensures b.heap.Some?
  {
  }

  /** A reload, an install or a comparison leaves a rebuild to be done, unless nothing was done. */
  lemma FlagKeepsCovered(w: World, s: Step)
    requires Inv(w) && Legal(w, s) && Covered(w) && (s.Refresh? || s.Install? || s.Compare?)
    ensures Covered(Next(w, s))
  {
    if s.Compare? {
      assert HeapCovers(w.beat) ==> HeapCovers(Next(w, s).beat);
    }
    hide HeapCovers;
  }

  lemma NextKeepsCovered(w: World, s: Step)
    requires Inv(w) && Legal(w, s) && Covered(w)
    ensures Covered(Next(w, s))
  {
    AsksOrNot(w, s);
    hide Inv, Legal, Next, Asks, HeapCovers;
    if s.Populate? {
      PopulateCovers(w, s);
    } else if s.Peek? || s.Check? {
      AskKeepsCovered(w, s);
    } else if s.Refresh? || s.Install? || s.Compare? {
      FlagKeepsCovered(w, s);
    } else {
      ScheduleStays(w, s);
      if HeapCovers(w.beat) {
        HeapIsThere(w.beat);
        SameNamesCover(w.beat, Next(w, s).beat);
      }
    }
  }

  /** In every reachable state each heap item names a scheduled entry, hence shares its model, at most one item
      per name; and every scheduled name has an item unless a rebuild is due. So nothing but live entries is
      ever checked or dispatched, and nothing that is scheduled is forgotten. */
  lemma {:induction false} HeapIsLive(w: World, steps: seq<Step>)
    requires Inv(w) && Covered(w) && Run(w, steps)
    ensures BeatOk(End(w, steps).beat) && Covered(End(w, steps))
    decreases |steps|
  {
    if steps != [] {
      NextKeepsInv(w, steps[0]);
      NextKeepsCovered(w, steps[0]);
      HeapIsLive(Next(w, steps[0]), steps[1..]);
    }
  }

  /** In particular in every state that beat can reach from its start. */
  lemma HeapIsLiveFromStart(w: World, steps: seq<Step>)
    requires Init(w) && Run(w, steps)
    ensures BeatOk(End(w, steps).beat) && Covered(End(w, steps))
  {
    InitInv(w);
    InitIsReady(w);
    HeapIsLive(w, steps);
  }

  /******* In step with the model *******/

  /** A slot of an enabled task whose own copies are those of its model. */
  predicate Current(s: Slot) {
    s.model.row.enabled ==> InStep(s)
  }

  ghost predicate AllCurrent(b: Beat) {
    forall n :: n in b.schedule ==> Current(b.schedule[n])
  }

  /** Every heap item has the run data of the model it shares. */
  ghost predicate HeapCurrent(b: Beat) {
    b.heap.Some? ==> forall i :: 0 <= i < |b.heap.value| ==> ItemCurrent(b, b.heap.value[i])
  }

  predicate ItemCurrent(b: Beat, x: Item) {
    x.name in b.schedule && (b.schedule[x.name].model.row.enabled ==> x.own == RunData(b.schedule[x.name].model))
  }

  /** A rebuild makes the heap current exactly if every scheduled entry is current. */
  lemma RebuildIsCurrentExactly(w: World, s: Step)
    requires Legal(w, s) && s.Populate?
    ensures HeapCurrent(Next(w, s).beat) <==> AllCurrent(w.beat)
  {
    var b := Next(w, s).beat;
    if HeapCurrent(b) {
      forall n | n in w.beat.schedule ensures Current(w.beat.schedule[n]) {
        assert n in s.order;
        var i :| 0 <= i < |s.order| && s.order[i] == n;
        assert ItemCurrent(b, b.heap.value[i]);
      }
    }
    if AllCurrent(w.beat) {
      forall i | 0 <= i < |b.heap.value| ensures ItemCurrent(b, b.heap.value[i]) {
        assert s.order[i] in s.order;
        assert Current(w.beat.schedule[s.order[i]]);
      }
    }
  }

  /** A dispatch leaves the slot in the schedule behind its model; only the pushed item is current. */
  lemma DispatchLeavesSlotBehind(w: World, s: Step, n: string)
    requires Inv(w) && Legal(w, s) && Dispatches(w, s, n)
    requires w.beat.schedule[n].own.totalRunCount <= w.beat.schedule[n].model.row.totalRunCount
    ensures !AllCurrent(Next(w, s).beat)
  {
    AskDispatches(w, s);
    assert !Current(Next(w, s).beat.schedule[n]);
  }

  /******* In time for the period *******/

  /** An entry with these copies cannot make an interval task run before a period after its model's last run: either
      it is not behind the model, or that period is over. */
  predicate InTime(m: Model, own: Own, clock: Time) {
    m.row.enabled && m.row.config.interval.Some? && m.row.lastRunAt.Some? && own.lastRunAt.Some? ==>
      || own.lastRunAt.value >= m.row.lastRunAt.value
      || clock >= m.row.lastRunAt.value + m.row.config.interval.value.content
  }

  /** The heap item of `n`, if there is one, is in time. */
  ghost predicate HeapInTime(w: World, n: string) {
    w.beat.heap.Some? && n in w.beat.schedule ==>
      forall i :: 0 <= i < |w.beat.heap.value| && w.beat.heap.value[i].name == n ==>
        InTime(w.beat.schedule[n].model, w.beat.heap.value[i].own, w.clock)
  }

  /** A rebuild finds the entry of `n` in time. The entries of other tasks do not matter. */
  ghost predicate TimelyRebuild(w: World, s: Step, n: string) {
    s.Populate? && n in w.beat.schedule ==> InTime(w.beat.schedule[n].model, w.beat.schedule[n].own, w.clock)
  }

  lemma ClockGoesOn(w: World, s: Step)
    requires Legal(w, s)
    ensures Next(w, s).clock >= w.clock
  {
    hide RowsOk, DbOk, FullSave, Decide, Installable, Listing, EffectOn, Judge, Fresh, Merge, Beats.Refresh;
  }

  lemma LaterIsInTime(m: Model, own: Own, clock: Time, later: Time)
    requires InTime(m, own, clock) && clock <= later
    ensures InTime(m, own, later)
  {
  }

  lemma DispatchKeepsInTime(w: World, s: Step, n: string)
    requires Inv(w) && Legal(w, s) && Asks(w, s) && HeapInTime(w, n) && Dispatches(w, s, AskedName(w, s))
    ensures HeapInTime(Next(w, s), n)
  {
    hide Judge, Inv, Legal, Next, RowOk, RowsOk;
    var b, b' := w.beat, Next(w, s).beat;
    AskDispatches(w, s);
    InvModel(w, AskedName(w, s));
    forall i | 0 <= i < |b'.heap.value| && b'.heap.value[i].name == n && n in b'.schedule
      ensures InTime(b'.schedule[n].model, b'.heap.value[i].own, Next(w, s).clock)
    {
      if i != s.i {
        assert b.heap.value[i].name != AskedName(w, s);
        LaterIsInTime(b.schedule[n].model, b.heap.value[i].own, w.clock, s.t);
      }
    }
  }

  lemma VerdictKeepsInTime(w: World, s: Step, n: string)
    requires Inv(w) && Legal(w, s) && Asks(w, s) && HeapInTime(w, n) && !Dispatches(w, s, AskedName(w, s))
    ensures HeapInTime(Next(w, s), n)
  {
    hide Judge, Inv, Legal, Next, Dispatches, EffectOn;
    var i, b, b' := AskedName(w, s), w.beat, Next(w, s).beat;
    AskDoesNotDispatch(w, s);
    EffectKeepsEnabled(w.db, b.schedule[i].model, VerdictOf(w, s), s.t);
    if b'.heap.Some? && n in b'.schedule {
      forall j | 0 <= j < |b'.heap.value| && b'.heap.value[j].name == n
        ensures InTime(b'.schedule[n].model, b'.heap.value[j].own, Next(w, s).clock)
      {
        LaterIsInTime(b.schedule[n].model, b.heap.value[j].own, w.clock, s.t);
      }
    }
  }

  lemma EmptyHeapInTime(w: World, s: Step, n: string)
    requires Inv(w) && Legal(w, s) && (s.Refresh? || s.Install?)
    ensures HeapInTime(Next(w, s), n)
  {
    hide InTime, Fresh, Merge;
    assert Next(w, s).beat.heap.None? || Next(w, s).beat.heap == Some([]);
  }

  lemma RebuiltInTime(w: World, s: Step, n: string)
    requires Legal(w, s) && s.Populate? && TimelyRebuild(w, s, n)
    ensures HeapInTime(Next(w, s), n)
  {
    hide InTime;
  }

  lemma StayingInTime(w: World, s: Step, n: string)
    requires Legal(w, s) && HeapInTime(w, n)
    requires !s.Refresh? && !s.Install? && !s.Populate? && !s.Peek? && !s.Check?
    ensures HeapInTime(Next(w, s), n)
  {
    hide Legal, Next;
    ScheduleStays(w, s);
    ClockGoesOn(w, s);
  }

  lemma NextKeepsInTime(w: World, s: Step, n: string)
    requires Inv(w) && Legal(w, s) && HeapInTime(w, n) && TimelyRebuild(w, s, n)
    ensures HeapInTime(Next(w, s), n)
  {
    AsksOrNot(w, s);
    hide Inv, Legal, Next, Asks, HeapInTime, TimelyRebuild, Dispatches;
    if s.Populate? {
      RebuiltInTime(w, s, n);
    } else if s.Peek? || s.Check? {
      if Dispatches(w, s, AskedName(w, s)) { DispatchKeepsInTime(w, s, n); } else { VerdictKeepsInTime(w, s, n); }
    } else if s.Refresh? || s.Install? {
      EmptyHeapInTime(w, s, n);
    } else {
      StayingInTime(w, s, n);
    }
  }

  /** Every rebuild of the run finds the entry of `n` in time. */
  ghost predicate Timely(w: World, steps: seq<Step>, n: string)
    requires Run(w, steps)
    decreases |steps|
  {
    steps == [] || (TimelyRebuild(w, steps[0], n) && Timely(Next(w, steps[0]), steps[1..], n))
  }

  lemma {:induction false} TimelyHeapInTime(w: World, steps: seq<Step>, n: string)
    requires Inv(w) && Run(w, steps) && Timely(w, steps, n) && HeapInTime(w, n)
    ensures HeapInTime(End(w, steps), n)
    decreases |steps|
  {
    if steps != [] {
      NextKeepsInv(w, steps[0]);
      NextKeepsInTime(w, steps[0], n);
      TimelyHeapInTime(Next(w, steps[0]), steps[1..], n);
    }
  }

  /** No interval task is dispatched twice within its period: at the end of any run in which the task stays
      scheduled, nobody else touches its run data, syncs fail as they like and each rebuild finds its entry in time,
      a dispatch at time t comes at least a period after the last dispatch of the run, and if there was none, at
      least a period after the last run the task started with. */
  lemma NeverTwiceWithinPeriod(w: World, steps: seq<Step>, s: Step, n: string, k: Pk)
    requires Inv(w) && HeapInTime(w, n)
    requires Run(w, steps) && Stays(w, steps, n, k) && Backed(w, n, k) && Timely(w, steps, n)
    requires Legal(End(w, steps), s) && Dispatches(End(w, steps), s, n)
    requires End(w, steps).beat.schedule[n].model.row.config.interval.Some?
    ensures var last := Latest(w, steps, n, w.beat.schedule[n].model.row.lastRunAt);
            && last.Some?
            && s.t >= last.value + End(w, steps).beat.schedule[n].model.row.config.interval.value.content
  {
    RunKeepsInv(w, steps);
    RunDataConserved(w, steps, n, k);
    TimelyHeapInTime(w, steps, n);
    DispatchInTime(End(w, steps), s, n);
  }

  lemma DispatchInTime(e: World, s: Step, n: string)
    requires Legal(e, s) && Dispatches(e, s, n) && HeapInTime(e, n)
    requires e.beat.schedule[n].model.row.config.interval.Some? && e.beat.schedule[n].model.row.lastRunAt.Some?
    ensures var m := e.beat.schedule[n].model;
            s.t >= m.row.lastRunAt.value + m.row.config.interval.value.content
  {
    var m, own := e.beat.schedule[n].model, e.beat.heap.value[s.i].own;
    FiringGate(m, own, s.t, s.answer);
    assert InTime(m, own, e.clock);
    assert s.t >= e.clock;
  }

  /******* When rebuilds find current entries *******/

  /** A caller that does not reload between a failed comparison and the rebuild that follows it, and whose
      comparison only fails because of a reload. */
  ghost predicate Orderly(w: World, s: Step) {
    && (s.Refresh? ==> !w.rebuilding)
    && (s.Compare? ==> s.same)
  }

  ghost predicate AllOrderly(w: World, steps: seq<Step>)
    requires Run(w, steps)
    decreases |steps|
  {
    steps == [] || (Orderly(w, steps[0]) && AllOrderly(Next(w, steps[0]), steps[1..]))
  }

  /** Between a reload and the rebuild the heap is empty and all entries are current. */
  ghost predicate RebuildReady(w: World) {
    && (w.beat.heap.None? || w.beat.heapInvalidated || w.rebuilding ==>
          AllCurrent(w.beat) && (w.beat.heap.None? || w.beat.heap == Some([])))
    && (w.beat.heap.None? || w.rebuilding ==> !w.beat.heapInvalidated)
  }

  lemma ReloadIsCurrent(w: World, s: Step)
    requires Legal(w, s) && s.Refresh?
    ensures AllCurrent(Next(w, s).beat)
  {
    forall n | n in Next(w, s).beat.schedule ensures Current(Next(w, s).beat.schedule[n]) {
      var k := RefreshedFrom(w, s, n);
    }
  }

  lemma AskKeepsCurrent(w: World, s: Step)
    requires Inv(w) && Legal(w, s) && Asks(w, s) && !Dispatches(w, s, AskedName(w, s)) && AllCurrent(w.beat)
    ensures AllCurrent(Next(w, s).beat)
  {
    hide Judge, Inv, Legal, Next, Dispatches, EffectOn;
    AskDoesNotDispatch(w, s);
    var n := AskedName(w, s);
    EffectKeepsEnabled(w.db, w.beat.schedule[n].model, VerdictOf(w, s), s.t);
    assert Current(w.beat.schedule[n]);
  }

  /** A dispatch needs a heap item, and then no rebuild is due. */
  lemma DispatchKeepsReady(w: World, s: Step)
    requires Legal(w, s) && Asks(w, s) && RebuildReady(w) && Dispatches(w, s, AskedName(w, s))
    ensures RebuildReady(Next(w, s))
  {
    hide Judge, Legal, Next, AllCurrent;
    AskDispatches(w, s);
    DispatchNotRebuilding(w, s);
  }

  lemma DispatchNotRebuilding(w: World, s: Step)
    requires Legal(w, s) && s.Check?
    ensures !w.rebuilding && w.beat.heap.Some? && w.beat.heap != Some([])
  {
  }

  lemma VerdictKeepsReady(w: World, s: Step)
    requires Inv(w) && Legal(w, s) && Asks(w, s) && RebuildReady(w) && !Dispatches(w, s, AskedName(w, s))
    ensures RebuildReady(Next(w, s))
  {
    hide Judge, Inv, Legal, Next, AllCurrent, Dispatches, EffectOn;
    AskDoesNotDispatch(w, s);
    VerdictChangesOne(w, s);
    if AllCurrent(w.beat) {
      AskKeepsCurrent(w, s);
    }
  }

  lemma InstallKeepsReady(w: World, s: Step)
    requires Legal(w, s) && RebuildReady(w) && s.Install?
    ensures RebuildReady(Next(w, s))
  {
    forall n | n in Next(w, s).beat.schedule ensures Current(Next(w, s).beat.schedule[n]) {
      assert n in s.entries ==> NewEntry(s.entries[n], n);
      assert n !in s.entries ==> Current(w.beat.schedule[n]);
    }
  }

  lemma ReloadKeepsReady(w: World, s: Step)
    requires Inv(w) && Legal(w, s) && RebuildReady(w) && s.Refresh? && Orderly(w, s)
    ensures RebuildReady(Next(w, s))
  {
    ReloadIsCurrent(w, s);
    hide AllCurrent, Merge, Fresh;
  }

  lemma CompareKeepsReady(w: World, s: Step)
    requires Inv(w) && Legal(w, s) && RebuildReady(w) && Orderly(w, s) && s.Compare?
    ensures RebuildReady(Next(w, s))
  {
    hide AllCurrent, DbOk, BeatOk, TimesOk;
    SameScheduleCurrent(w.beat, Next(w, s).beat);
  }

  lemma PopulateKeepsReady(w: World, s: Step)
    requires Legal(w, s) && RebuildReady(w) && s.Populate?
    ensures RebuildReady(Next(w, s))
  {
    hide AllCurrent, Listing, ItemsOf;
  }

  lemma OtherStepKeepsReady(w: World, s: Step)
    requires Legal(w, s) && RebuildReady(w)
    requires !s.Refresh? && !s.Install? && !s.Peek? && !s.Check? && !s.Compare? && !s.Populate?
    ensures RebuildReady(Next(w, s))
  {
    hide AllCurrent, Legal, Next;
    ScheduleStays(w, s);
    SameScheduleCurrent(w.beat, Next(w, s).beat);
  }

  lemma SameScheduleCurrent(b: Beat, b': Beat)
    requires b'.schedule == b.schedule
    ensures AllCurrent(b) <==> AllCurrent(b')
  {
  }

  lemma NextKeepsReady(w: World, s: Step)
    requires Inv(w) && Legal(w, s) && RebuildReady(w) && Orderly(w, s)
    ensures RebuildReady(Next(w, s))
  {
    AsksOrNot(w, s);
    hide Inv, Legal, Next, Asks, RebuildReady, Orderly, Dispatches;
    if s.Refresh? {
      ReloadKeepsReady(w, s);
    } else if s.Install? {
      InstallKeepsReady(w, s);
    } else if s.Peek? || s.Check? {
      if Dispatches(w, s, AskedName(w, s)) { DispatchKeepsReady(w, s); } else { VerdictKeepsReady(w, s); }
    } else if s.Compare? {
      CompareKeepsReady(w, s);
    } else if s.Populate? {
      PopulateKeepsReady(w, s);
    } else {
      OtherStepKeepsReady(w, s);
    }
  }

  /** Such a caller always rebuilds from entries that are in time, those of every task. */
  lemma {:induction false} OrderlyIsTimely(w: World, steps: seq<Step>, n: string)
    requires Inv(w) && RebuildReady(w) && Run(w, steps) && AllOrderly(w, steps)
    ensures Timely(w, steps, n) && RebuildReady(End(w, steps))
    decreases |steps|
  {
    if steps != [] {
      NextKeepsInv(w, steps[0]);
      NextKeepsReady(w, steps[0]);
      ReadyIsTimely(w, steps[0], n);
      OrderlyIsTimely(Next(w, steps[0]), steps[1..], n);
    }
  }

  lemma ReadyIsTimely(w: World, s: Step, n: string)
    requires Legal(w, s) && RebuildReady(w)
    ensures TimelyRebuild(w, s, n)
  {
    if s.Populate? && n in w.beat.schedule {
      assert Current(w.beat.schedule[n]);
    }
  }

  lemma InitIsReady(w: World)
    requires Init(w)
    ensures RebuildReady(w) && Covered(w) && forall n :: HeapInTime(w, n)
  {
  }

  /** From the start, with a caller that is orderly throughout: from any moment on at which the task is scheduled and
      backed by its row, as it is after each reload, it is not dispatched twice within its period. */
  lemma OrderlyNeverTwice(start: World, before: seq<Step>, steps: seq<Step>, s: Step, n: string, k: Pk)
    requires Init(start) && Run(start, before) && AllOrderly(start, before)
    requires Run(End(start, before), steps) && AllOrderly(End(start, before), steps)
    requires Stays(End(start, before), steps, n, k) && Backed(End(start, before), n, k)
    requires Legal(End(End(start, before), steps), s) && Dispatches(End(End(start, before), steps), s, n)
    requires End(End(start, before), steps).beat.schedule[n].model.row.config.interval.Some?
    ensures var w, e := End(start, before), End(End(start, before), steps);
            var last := Latest(w, steps, n, w.beat.schedule[n].model.row.lastRunAt);
            last.Some? && s.t >= last.value + e.beat.schedule[n].model.row.config.interval.value.content
  {
    hide Inv, Legal, Next, RebuildReady, HeapInTime, Init, Stays, Backed, Dispatches;
    var w := End(start, before);
    InitInv(start);
    InitIsReady(start);
    RunKeepsInv(start, before);
    OrderlyIsTimely(start, before, n);
    TimelyHeapInTime(start, before, n);
    OrderlyIsTimely(w, steps, n);
    NeverTwiceWithinPeriod(w, steps, s, n, k);
  }

  /******* When they do not *******/

  /** A task that runs every `period`, is enabled, and has no gate in the way from `t` on until `t'`. */
  predicate Recurring(m: Model, period: int, t: Time, t': Time) {
    var c := m.row.config;
    && m.row.enabled && !c.oneOff && c.interval.Some? && c.interval.value.content == period
    && (c.startTime.Some? ==> c.startTime.value <= t)
    && (c.expires.Some? ==> t' < c.expires.value)
  }

  /** A reload between a failed comparison and the rebuild leaves the flag up next to a full heap. */
  lemma ReloadWhileRebuilding(w: World, s: Step)
    requires Legal(w, s) && s.Refresh? && w.rebuilding && w.updating == Some(false)
    ensures Next(w, s).rebuilding && Next(w, s).beat.heapInvalidated && Idle(Next(w, s))
    ensures AllCurrent(Next(w, s).beat)
  {
    ReloadIsCurrent(w, s);
  }

  lemma RecurringFires(m: Model, own: Own, period: int, now: Time, t: Time, t': Time, a: Answer)
    requires Recurring(m, period, t, t') && t <= now <= t'
    requires own.lastRunAt.Some? && own.lastRunAt.value + period <= now
    ensures Fires(Judge(m, own, now, a))
  {
  }

  /** A rebuild, and a check of the item at `i`, which is due. */
  lemma RebuildAndCheck(w: World, order: seq<string>, i: nat, t: Time, a: Answer) returns (w1: World)
    requires w.rebuilding && Idle(w)
    requires Listing(order, w.beat.schedule.Keys) && i < |order| && w.clock <= t
    requires order[i] in w.beat.schedule
    requires Fires(Judge(w.beat.schedule[order[i]].model, w.beat.schedule[order[i]].own, t, a))
    ensures Legal(w, Populate(order)) && w1 == Next(w, Populate(order))
    ensures w1.beat.schedule == w.beat.schedule && w1.beat.heapInvalidated == w.beat.heapInvalidated
    ensures Idle(w1) && !w1.rebuilding && w1.beat.initialRead == w.beat.initialRead
    ensures Legal(w1, Check(i, t, a)) && Asks(w1, Check(i, t, a)) && AskedName(w1, Check(i, t, a)) == order[i]
    ensures Dispatches(w1, Check(i, t, a), order[i])
  {
    w1 := Next(w, Populate(order));
    assert w1.beat.heap.value[i] == Item(order[i], w.beat.schedule[order[i]].own);
  }

  /** A check of the item at `i` dispatches, before a period has passed since the model's last run. */
  ghost predicate EarlyDispatch(w: World, i: nat, n: string, t: Time, a: Answer) {
    && Legal(w, Check(i, t, a)) && Dispatches(w, Check(i, t, a), n)
    && w.beat.schedule[n].model.row.lastRunAt.Some? && w.beat.schedule[n].model.row.config.interval.Some?
    && t < w.beat.schedule[n].model.row.lastRunAt.value + w.beat.schedule[n].model.row.config.interval.value.content
  }

  function Max(a: int, b: int): int { if a >= b then a else b }

  /** The first time at which an interval entry is due and has started. */
  function FirstDue(c: Config, last: Time, clock: Time): Time
    requires c.interval.Some?
  {
    Max(Max(clock, last + c.interval.value.content), Or(c.startTime, clock))
  }

  /** The exact condition: after a rebuild, an interval task that may still run can be dispatched before its period is
      over if and only if the rebuild found its entry not in time, and it has started and not expired by then. */
  lemma EarlyDispatchExactly(w: World, order: seq<string>, i: nat)
    requires Legal(w, Populate(order)) && i < |order| && order[i] in w.beat.schedule
    requires var s := w.beat.schedule[order[i]];
             && s.model.row.enabled && (s.model.row.config.oneOff ==> s.model.row.totalRunCount == 0)
             && s.model.row.config.interval.Some? && s.model.row.lastRunAt.Some? && s.own.lastRunAt.Some?
    ensures var s, c := w.beat.schedule[order[i]], w.beat.schedule[order[i]].model.row.config;
            var due := FirstDue(c, s.own.lastRunAt.value, w.clock);
            (exists t, a :: EarlyDispatch(Next(w, Populate(order)), i, order[i], t, a)) <==>
              && !InTime(s.model, s.own, w.clock)
              && (c.startTime.Some? ==> c.startTime.value < s.model.row.lastRunAt.value + c.interval.value.content)
              && (c.expires.Some? ==> due < c.expires.value)
  {
    var s, c := w.beat.schedule[order[i]], w.beat.schedule[order[i]].model.row.config;
    var due := FirstDue(c, s.own.lastRunAt.value, w.clock);
    var w1 := Next(w, Populate(order));
    assert w1.beat.heap.value[i] == Item(order[i], s.own);
    if t, a :| EarlyDispatch(w1, i, order[i], t, a) {
      FiringGate(s.model, s.own, t, a);
      assert due <= t;
    }
    if && !InTime(s.model, s.own, w.clock)
       && (c.startTime.Some? ==> c.startTime.value < s.model.row.lastRunAt.value + c.interval.value.content)
       && (c.expires.Some? ==> due < c.expires.value)
    {
      var a := Answer(SchedState(false, 0), 0);
      assert Fires(Judge(s.model, s.own, due, a));
      var w2 := RebuildAndCheck(w, order, i, due, a);
      assert EarlyDispatch(w1, i, order[i], due, a);
    }
  }

  /** While the flag is up, the next comparison fails whatever the schedules are. */
  lemma FlagForcesRebuild(w: World)
    requires w.beat.heap.Some? && w.beat.heapInvalidated && Idle(w) && !w.beat.initialRead && !w.rebuilding
    ensures Legal(w, Compare(true))
    ensures Next(w, Compare(true)) == w.(beat := w.beat.(heapInvalidated := false), rebuilding := true)
  {
  }

  /** From such a state the scheduler rebuilds, dispatches `n`, finds the flag still up, rebuilds again from
      the entry that is behind its model, and dispatches `n` a second time at any later time, however short
      after the first. Without the discipline above, the promise of the period is not kept. */
  lemma DispatchedTwice(w: World, order: seq<string>, i: nat, period: int, t: Time, t': Time, a: Answer)
    requires w.rebuilding && w.beat.heapInvalidated && Idle(w) && !w.beat.initialRead
    requires Listing(order, w.beat.schedule.Keys) && i < |order| && w.clock <= t <= t'
    requires order[i] in w.beat.schedule
    requires var s := w.beat.schedule[order[i]];
             Recurring(s.model, period, t, t') && s.own.lastRunAt.Some? && s.own.lastRunAt.value + period <= t
    ensures var steps := [Populate(order), Check(i, t, a), Compare(true), Populate(order)];
            && Run(w, steps)
            && Dispatches(Next(w, Populate(order)), Check(i, t, a), order[i])
            && Legal(End(w, steps), Check(i, t', a))
            && Dispatches(End(w, steps), Check(i, t', a), order[i])
            && order[i] in End(w, steps).beat.schedule
            && End(w, steps).beat.schedule[order[i]].model == Advance(w.beat.schedule[order[i]].model, t)
  {
    var n := order[i];
    RecurringFires(w.beat.schedule[n].model, w.beat.schedule[n].own, period, t, t, t', a);
    var w1 := RebuildAndCheck(w, order, i, t, a);
    AskDispatches(w1, Check(i, t, a));
    var w2 := Next(w1, Check(i, t, a));
    FlagForcesRebuild(w2);
    var w3 := Next(w2, Compare(true));
    assert w3.beat.schedule.Keys == w.beat.schedule.Keys;
    RecurringFires(w3.beat.schedule[n].model, w3.beat.schedule[n].own, period, t', t, t', a);
    var w4 := RebuildAndCheck(w3, order, i, t', a);
    TwiceIsARun(w, w1, w2, w3, w4, order, Check(i, t, a));
  }

  lemma TwiceIsARun(w: World, w1: World, w2: World, w3: World, w4: World, order: seq<string>, check: Step)
    requires Legal(w, Populate(order)) && w1 == Next(w, Populate(order))
    requires Legal(w1, check) && w2 == Next(w1, check)
    requires Legal(w2, Compare(true)) && w3 == Next(w2, Compare(true))
    requires Legal(w3, Populate(order)) && w4 == Next(w3, Populate(order))
    ensures var steps := [Populate(order), check, Compare(true), Populate(order)];
            Run(w, steps) && End(w, steps) == w4
  {
    RunCons(w3, Populate(order), []);
    RunCons(w2, Compare(true), [Populate(order)] + []);
    RunCons(w1, check, [Compare(true)] + ([Populate(order)] + []));
    RunCons(w, Populate(order), [check] + ([Compare(true)] + ([Populate(order)] + [])));
    assert [Populate(order)] + ([check] + ([Compare(true)] + ([Populate(order)] + [])))
        == [Populate(order), check, Compare(true), Populate(order)];
  }
}
