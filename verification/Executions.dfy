/** The machine's runs, carried out on the object graph. An `Execution` performs the steps of `Machine` one by one
    with the methods of the classes, and every step leaves the objects looking as the machine says. So a theorem
    about all runs is one about all executions, with the sharing of instances and with other processes acting
    between any two steps, also between the read and the write of a save. */
module Executions {
  import opened Base
  import opened Models
  import opened Entries
  import opened Candidates
  import opened Beats
  import opened Machine
  import opened Schedulers

  /** A save that has read its row: the name, and the instance it will write. */
  datatype Reading = Reading(name: string, obj: PeriodicTask)

  class Execution {
    const scheduler: DatabaseScheduler
    var updating: Option<bool>
    var rebuilding: bool
    var reading: Option<Reading>
    ghost var world: World

    constructor (db: Database, ghost w: World)
      requires Init(w) && w.db == db.View()
      ensures Valid() && world == w && scheduler.db == db
      ensures fresh(scheduler) && Objects() == {}
    {
      scheduler := new DatabaseScheduler(db);
      updating, rebuilding, reading := None, false, None;
      world := w;
      new;
      InitInv(w);
    }

    ghost function Objects(): set<PeriodicTask>
      reads this, scheduler
    {
      scheduler.Instances() + (if reading.Some? then {reading.value.obj} else {})
    }

    /** The objects look as the machine's state says. */
    ghost predicate Pictured()
      reads this, scheduler, scheduler.db, scheduler.Entries(), scheduler.Instances()
    {
      && world.beat == scheduler.View() && world.db == scheduler.db.View()
      && world.updating == updating && world.rebuilding == rebuilding
    }

    ghost predicate ReadingPictured()
      reads this, scheduler, scheduler.Entries(), Objects()
    {
      && (world.fetched.Some? <==> reading.Some?)
      && (reading.Some? ==>
            && reading.value.obj !in scheduler.Instances()
            && reading.value.obj.pk == Key(reading.value.name)
            && world.fetched == Some(Fetched(reading.value.name, reading.value.obj.RowView())))
    }

    ghost function Key(n: string): Pk
      reads this
    {
      if n in world.beat.schedule then world.beat.schedule[n].model.pk else 0
    }

    ghost predicate Valid()
      reads this, scheduler, scheduler.db, scheduler.Entries(), Objects()
    {
      scheduler.Valid() && Pictured() && ReadingPictured() && Inv(world)
    }

    /******* Other processes *******/

    method OthersWrite(rows: map<Pk, Row>, schedules: Schedules)
      requires Valid() && Legal(world, Write(rows, schedules))
      modifies this, scheduler.db
      ensures Valid() && world == Next(old(world), Write(rows, schedules))
      ensures Objects() == old(Objects())
    {
      hide Inv, BeatOk;
      NextKeepsInv(world, Write(rows, schedules));
      scheduler.db.rows := rows;
      scheduler.db.schedules := schedules;
      world := Next(world, Write(rows, schedules));
    }

    method OthersBump(s: Step)
      requires Valid() && (s.Finish? || s.Bump?) && Legal(world, s)
      modifies this, scheduler.db
      ensures Valid() && world == Next(old(world), s)
      ensures Objects() == old(Objects())
    {
      hide Inv, BeatOk;
      NextKeepsInv(world, s);
      scheduler.db.lastUpdate := Some(s.t);
      world := Next(world, s);
    }

    /******* The schedule property *******/

    method DoAccess(a: Time, pollFails: bool)
      requires Valid() && Legal(world, Access(a, pollFails))
      modifies this, scheduler
      ensures Valid() && world == Next(old(world), Access(a, pollFails))
      ensures Objects() == old(Objects())
    {
      hide Inv, BeatOk, Legal, Next, AfterDecision, Slots, Items, Filed;
      NextKeepsInv(world, Access(a, pollFails));
      AccessIs(world, Access(a, pollFails));
      var update, initial := scheduler.Decide(a, pollFails);
      updating := if update then Some(initial) else None;
      world := Next(world, Access(a, pollFails));
    }

    method DoFetch(n: string)
      requires Valid() && Legal(world, Fetch(n))
      modifies this
      ensures Valid() && world == Next(old(world), Fetch(n))
      ensures fresh(Objects() - old(Objects()))
    {
      hide Inv, BeatOk, Legal, Next, Slots, Items, Filed;
      NextKeepsInv(world, Fetch(n));
      FetchIs(world, Fetch(n));
      scheduler.KeysOf();
      scheduler.ScheduledEntry(n);
      var obj := scheduler.schedule[n].Fetch(scheduler.db);
      reading := Some(Reading(n, obj.value));
      world := Next(world, Fetch(n));
    }

    /** The write itself: nothing that the scheduler can reach changes. */
    method WriteRow(t: Time)
      requires Valid() && Legal(world, Store(t))
      modifies scheduler.db, Objects()
      ensures scheduler.Valid() && scheduler.View() == world.beat && Inv(world)
      ensures scheduler.db.View() == Next(world, Store(t)).db
      ensures scheduler.Instances() == old(scheduler.Instances())
    {
      hide Inv, BeatOk, Legal, Next, FullSave, Slots, Items, Filed;
      StoreWrites(world, Store(t));
      ReadingFits();
      var e := scheduler.schedule[reading.value.name].Store(reading.value.obj, scheduler.db, t);
    }

    method DoStore(t: Time)
      requires Valid() && Legal(world, Store(t))
      modifies this, scheduler, scheduler.db, Objects()
      ensures Valid() && world == Next(old(world), Store(t))
      ensures Objects() <= old(Objects())
    {
      hide Inv, BeatOk, Legal, Next, Slots, Items, Filed, RowOk;
      NextKeepsInv(world, Store(t));
      StoreChanges(world, Store(t));
      WriteRow(t);
      scheduler.Clean(reading.value.name);
      reading := None;
      world := Next(world, Store(t));
    }

    /** The name that is being saved has an entry, and the instance read for it is not that entry's. */
    lemma ReadingFits()
      requires Valid() && reading.Some? && reading.value.name in world.beat.schedule
      ensures var n, obj := reading.value.name, reading.value.obj;
              && n in scheduler.schedule && scheduler.schedule[n].model in scheduler.Instances()
              && scheduler.schedule[n].model != obj && obj.pk == scheduler.schedule[n].model.pk
              && world.beat.schedule[n].model == scheduler.schedule[n].model.View()
              && world.fetched == Some(Fetched(n, obj.RowView()))
    {
      hide Inv, BeatOk;
      assert scheduler.schedule[reading.value.name] in scheduler.Entries();
    }

    method DoGiveUp()
      requires Valid() && Legal(world, GiveUp)
      modifies this
      ensures Valid() && world == Next(old(world), GiveUp)
      ensures Objects() <= old(Objects())
    {
      hide Inv, BeatOk;
      NextKeepsInv(world, GiveUp);
      reading := None;
      world := Next(world, GiveUp);
    }

    method DoRefresh(q: Time, f: Filter)
      requires Valid() && Legal(world, Step.Refresh(q, f))
      modifies this, scheduler
      ensures Valid() && world == Next(old(world), Step.Refresh(q, f))
      ensures fresh(Objects() - old(Objects()))
    {
      hide Inv, BeatOk, Legal, Next, Beats.Refresh, DbOk, Slots, Items;
      ghost var s := Step.Refresh(q, f);
      NextKeepsInv(world, s);
      RefreshIs(world, s);
      scheduler.LoadAgain(f, q, updating.value);
      updating := None;
      world := Next(world, s);
    }

    /** `update_from_dict`, once `from_entry` has built the entries. */
    method DoInstall(entries: map<string, Slot>)
      requires Valid() && Legal(world, Install(entries))
      modifies this, scheduler
      ensures Valid() && world == Next(old(world), Install(entries))
      ensures fresh(Objects() - old(Objects()))
    {
      hide Inv, BeatOk, Legal, Next, Installable, Slots, Items, Filed;
      NextKeepsInv(world, Install(entries));
      InstallChanges(world, Install(entries));
      InstallBuilt(entries);
      world := Next(world, Install(entries));
    }

    method InstallBuilt(entries: map<string, Slot>)
      requires scheduler.Valid() && Inv(world) && world.beat == scheduler.View()
      requires HeapEmpty(world.beat) && Installable(world.beat.schedule, entries)
      modifies scheduler
      ensures scheduler.Valid() && scheduler.View() == world.beat.(schedule := world.beat.schedule + entries)
      ensures fresh(scheduler.Instances() - old(scheduler.Instances()))
    {
      hide Inv, BeatOk, RowOk, Slots, Items, Filed;
      var s := NewEntries(entries);
      InvBeat(world);
      InstalledOk(world.beat, entries);
      scheduler.NoItems();
      scheduler.InstancesAreScheduled();
      scheduler.Install(s, world.beat.(schedule := world.beat.schedule + entries));
      scheduler.InstancesAreScheduled();
    }

    lemma InvBeat(w: World)
      requires Inv(w)
      ensures BeatOk(w.beat)
    {
    }

    method NewEntries(entries: map<string, Slot>) returns (s: map<string, ModelEntry>)
      requires forall n :: n in entries ==> NewEntry(entries[n], n)
      ensures Filed(s) && Slots(s) == entries
      ensures forall n :: n in s ==> fresh(s[n]) && fresh(s[n].model)
    {
      hide RowOk;
      s := map[];
      var todo := entries.Keys;
      while todo != {}
        invariant todo <= entries.Keys && s.Keys == entries.Keys - todo
        invariant forall n :: n in s ==> fresh(s[n]) && fresh(s[n].model)
        invariant forall n :: n in s ==> s[n].name == n && s[n].View() == entries[n]
        decreases |todo|
      {
        var n :| n in todo;
        assert NewEntry(entries[n], n);
        todo := todo - {n};
        var model := new PeriodicTask(entries[n].model.pk, entries[n].model.row);
        var entry := new ModelEntry(model, 0);
        s := s[n := entry];
      }
    }

    /******* Celery's tick *******/

    /** `if self._heap is None or not self.schedules_equal(...)`. */
    method DoCompare(same: bool)
      requires Valid() && Legal(world, Compare(same))
      modifies this, scheduler
      ensures Valid() && world == Next(old(world), Compare(same))
      ensures Objects() == old(Objects())
    {
      hide Inv, BeatOk, Legal, Next, Slots, Items, Filed;
      NextKeepsInv(world, Compare(same));
      CompareIs(world, Compare(same));
      if scheduler.heap.None? {
        rebuilding := true;
      } else {
        var equal := scheduler.SchedulesEqual(same);
        rebuilding := !equal;
      }
      world := Next(world, Compare(same));
    }

    method DoPopulate(order: seq<string>)
      requires Valid() && Legal(world, Populate(order))
      modifies this, scheduler
      ensures Valid() && world == Next(old(world), Populate(order))
      ensures Objects() <= old(Objects())
    {
      hide BeatOk, ItemsOf, Slots, Items, Filed, DbOk, Listing;
      NextKeepsInv(world, Populate(order));
      scheduler.InstancesAreScheduled();
      scheduler.KeysOf();
      scheduler.PopulateHeap(order);
      scheduler.InstancesAreScheduled();
      rebuilding := false;
      world := Next(world, Populate(order));
    }

    method DoPeek(n: string, t: Time, a: Answer)
      requires Valid() && Asks(world, Peek(n, t, a)) && Legal(world, Peek(n, t, a))
      modifies this, scheduler.db, Objects()
      ensures Valid() && world == Next(old(world), Peek(n, t, a))
      ensures Objects() == old(Objects())
    {
      hide Inv, BeatOk, Legal, Next, Judge, EffectOn, Slots, Items;
      ghost var w, s := world, Peek(n, t, a);
      NextKeepsInv(w, s);
      AskGoesThrough(w, s);
      scheduler.KeysOf();
      scheduler.ScheduledEntry(n);
      var r := scheduler.Examine(scheduler.schedule[n], t, a);
      world := Next(w, s);
    }

    method DoCheck(i: nat, t: Time, a: Answer)
      requires Valid() && Asks(world, Check(i, t, a)) && Legal(world, Check(i, t, a))
      modifies this, scheduler, scheduler.db, Objects()
      ensures Valid() && world == Next(old(world), Check(i, t, a))
      ensures Objects() <= old(Objects())
    {
      hide Inv, BeatOk, Legal, Next, Judge, Slots, Items, Filed, Dispatched;
      NextKeepsInv(world, Check(i, t, a));
      AskLeavesRest(world, Check(i, t, a));
      CheckObjects(i, t, a);
      world := Next(world, Check(i, t, a));
    }

    method CheckObjects(i: nat, t: Time, a: Answer)
      requires scheduler.Valid() && Inv(world)
      requires world.beat == scheduler.View() && world.db == scheduler.db.View()
      requires Asks(world, Check(i, t, a)) && Legal(world, Check(i, t, a))
      modifies scheduler, scheduler.db, scheduler.Instances()
      ensures scheduler.Valid() && scheduler.Instances() <= old(scheduler.Instances())
      ensures scheduler.View() == Next(world, Check(i, t, a)).beat
      ensures scheduler.db.View() == Next(world, Check(i, t, a)).db
    {
      hide Inv, BeatOk, Legal, Next, Judge, EffectOn, Slots, Items, Dispatched, Reply, Filed, Fires;
      AskGoesThrough(world, Check(i, t, a));
      scheduler.InstancesAreScheduled();
      scheduler.NamesOf(world.beat);
      scheduler.HeapEntry(i);
      var r := scheduler.CheckItem(i, t, a);
      scheduler.InstancesAreScheduled();
    }

    /******* Any run *******/

    /** One step of the machine, on the objects. */
    method Perform(s: Step)
      requires Valid() && Legal(world, s)
      modifies this, scheduler, scheduler.db, Objects()
      ensures Valid() && world == Next(old(world), s)
      ensures fresh(Objects() - old(Objects()))
    {
      hide Valid, Legal, Next, Asks;
      AsksOrNot(world, s);
      match s
      case Write(rows, schedules) => OthersWrite(rows, schedules);
      case Finish(_) => OthersBump(s);
      case Bump(_) => OthersBump(s);
      case Access(a, pollFails) => DoAccess(a, pollFails);
      case Fetch(n) => DoFetch(n);
      case Store(t) => DoStore(t);
      case GiveUp => DoGiveUp();
      case Refresh(q, f) => DoRefresh(q, f);
      case Install(entries) => DoInstall(entries);
      case Compare(same) => DoCompare(same);
      case Populate(order) => DoPopulate(order);
      case Peek(n, t, a) => DoPeek(n, t, a);
      case Check(i, t, a) => DoCheck(i, t, a);
    }

    /** Every run of the machine can be carried out on the objects, and ends with objects that look like its end:
        what is proved of all runs holds of the object graph. */
    method RunAll(steps: seq<Step>)
      requires Valid() && Run(world, steps)
      modifies this, scheduler, scheduler.db, Objects()
      ensures Valid() && world == End(old(world), steps)
      ensures scheduler.View() == End(old(world), steps).beat
      ensures scheduler.db.View() == End(old(world), steps).db
    {
      hide Inv, Legal, Next, Asks, ReadingPictured;
      var i := 0;
      assert steps[0..] == steps;
      while i < |steps|
        invariant 0 <= i <= |steps| && Valid() && fresh(Objects() - old(Objects()))
        invariant Run(world, steps[i..]) && End(world, steps[i..]) == End(old(world), steps)
      {
        assert steps[i..][0] == steps[i] && steps[i..][1..] == steps[i + 1..];
        Perform(steps[i]);
        i := i + 1;
      }
    }
  }
}
