/** `ModelEntry`: the in-memory side of one task, and the decision whether it is due. */
module Entries {
  import opened Base
  import opened Models

  /** A `PeriodicTask` instance held by beat. */
  datatype Model = Model(pk: Pk, row: Row, noChanges: bool)

  /** The copies that an entry takes of its model's run data when it is built. */
  datatype Own = Own(lastRunAt: Option<Time>, totalRunCount: nat)

  /** One value of `_schedule`: an entry and the model it shares with the heap. */
  datatype Slot = Slot(model: Model, own: Own)

  const THIRTY_YEARS: int := 365 * 30 * DAY

  function RunData(m: Model): Own {
    Own(m.row.lastRunAt, m.row.totalRunCount)
  }

  /** The entry's copies agree with its model. */
  predicate InStep(s: Slot) {
    s.own == RunData(s.model)
  }

  /** The `last_run_at` that `__init__` gives a model: the stored one, else the time of the last edit,
      moved far back when the task waits for a start time. */
  function StartingPoint(r: Row, now: Time): Time {
    if r.lastRunAt.Some? then r.lastRunAt.value
    else
      var base := Or(r.dateChanged, now);
      if r.config.startTime.Some? then base - THIRTY_YEARS else base
  }

  function Load(pk: Pk, r: Row, now: Time): Slot {
    var m := Model(pk, r.(lastRunAt := Some(StartingPoint(r, now))), false);
    Slot(m, RunData(m))
  }

  /** `__next__`. */
  function Advance(m: Model, now: Time): Model {
    Model(m.pk, m.row.(lastRunAt := Some(now), totalRunCount := m.row.totalRunCount + 1), true)
  }

  /** A saved row is loaded the same way at any time, so reloading never shifts a task that has not run. */
  lemma LoadIgnoresTime(pk: Pk, r: Row, now: Time, later: Time)
    requires r.dateChanged.Some?
    ensures Load(pk, r, now) == Load(pk, r, later)
    ensures r.lastRunAt.None? && r.config.startTime.None? ==>
              Load(pk, r, now).own.lastRunAt == r.dateChanged
  {
  }

  /** What loading a row makes: its last run if it has one, else the last edit or the present, thirty years of 365 days
      back if there is a start time. Nothing else of the row changes; the entry copies its model. */
  lemma LoadExactly(pk: Pk, r: Row, now: Time)
    ensures var s := Load(pk, r, now);
            && s.model.pk == pk && !s.model.noChanges && s.model.row.(lastRunAt := r.lastRunAt) == r
            && s.own.lastRunAt == s.model.row.lastRunAt && s.own.totalRunCount == r.totalRunCount
            && (r.lastRunAt.Some? ==> s.model.row.lastRunAt == r.lastRunAt)
            && (r.lastRunAt.None? ==>
                  var shift := if r.config.startTime.Some? then 30 * 365 * 86_400 * 1_000_000 else 0;
                  && (r.dateChanged.Some? ==> s.model.row.lastRunAt == Some(r.dateChanged.value - shift))
                  && (r.dateChanged.None? ==> s.model.row.lastRunAt == Some(now - shift)))
  {
  }

  /** What `__next__` changes. */
  lemma AdvanceExactly(m: Model, now: Time)
    ensures var m' := Advance(m, now);
            && m'.pk == m.pk && m'.noChanges
            && m'.row.lastRunAt == Some(now) && m'.row.totalRunCount == m.row.totalRunCount + 1
            && m'.row.(lastRunAt := m.row.lastRunAt, totalRunCount := m.row.totalRunCount) == m.row
  {
  }

  /******* is_due *******/

  datatype SchedState = SchedState(isDue: bool, next: Time)

  /** What the code outside this model answers: a crontab's or solar schedule's `is_due`, and the start
      that a crontab computes from `start_time`. */
  datatype Answer = Answer(state: SchedState, start: Time)

  datatype Verdict =
    | Disabled
    | NotStarted(delay: Time)
    | Expired
    | OneOffDone
    | Broken                       // the entry has no last run to compare with
    | Asked(state: SchedState)

  function CeilSeconds(d: Time): int {
    -((-d) / SECOND)
  }

  /** `clocked.is_due`. */
  function ClockedDue(at: Time, now: Time): SchedState {
    var remaining := if at - now > 0 then at - now else 0;
    if remaining == 0 then SchedState(true, NEVER_CHECK) else SchedState(false, remaining)
  }

  /** An interval is due once its period has passed since the last run. */
  function IntervalDue(period: int, last: Time, now: Time): SchedState {
    if last + period <= now then SchedState(true, period) else SchedState(false, last + period - now)
  }

  /** `scheduler.schedule.is_due`, in the order in which the `scheduler` property looks. */
  function Consult(c: Config, last: Time, now: Time, a: Answer): SchedState {
    if c.interval.Some? then IntervalDue(c.interval.value.content, last, now)
    else if c.crontab.Some? then a.state
    else if c.solar.Some? then a.state
    else if c.clocked.Some? then ClockedDue(c.clocked.value.content, now)
    else a.state
  }

  /** `PeriodicTask.due_start_time`. */
  function DueStart(c: Config, start: Time, a: Answer): Time {
    if c.crontab.Some? then a.start else start
  }

  /** `ModelEntry.is_due`, with the branch that was taken. */
  function Judge(m: Model, own: Own, now: Time, a: Answer): Verdict {
    var r, c := m.row, m.row.config;
    if !r.enabled then Disabled
    else if c.startTime.Some? && now < c.startTime.value then
      NotStarted(CeilSeconds(DueStart(c, c.startTime.value, a) - now) * SECOND)
    else if c.expires.Some? && now >= c.expires.value then Expired
    else if c.oneOff && r.totalRunCount > 0 then OneOffDone
    else if own.lastRunAt.None? then Broken
    else Asked(Consult(c, own.lastRunAt.value, now, a))
  }

  predicate Fires(v: Verdict) {
    v.Asked? && v.state.isDue
  }

  /** The state `is_due` returns for each verdict. */
  function Reply(v: Verdict): SchedState {
    match v
    case Disabled => SchedState(false, 5 * SECOND)
    case NotStarted(d) => SchedState(false, d)
    case Expired => SchedState(false, NEVER_CHECK)
    case OneOffDone => SchedState(false, NEVER_CHECK)
    case Broken => SchedState(false, 0)
    case Asked(s) => s
  }

  /** The model after the expiry branch: `_disable` runs a full save. */
  function Expire(m: Model, now: Time): Model {
    Model(m.pk, Stored(m.row.(enabled := false), now), true)
  }

  /** The model after the one-off branch. */
  function Retire(m: Model, now: Time): Model {
    Model(m.pk, Stored(m.row.(enabled := false, totalRunCount := 0), now), false)
  }

  /******* What a verdict promises *******/

  /** A clocked schedule is due exactly from its time on, and else says how long that takes. */
  lemma ClockedExactly(at: Time, now: Time)
    ensures ClockedDue(at, now).isDue <==> at <= now
    ensures at <= now ==> ClockedDue(at, now).next == 100_000_000 * SECOND
    ensures at > now ==> now + ClockedDue(at, now).next == at
  {
  }

  /** An interval is due exactly a period after the last run, and says when the next run is: a period from now if it
      is due, else when it will be due. */
  lemma IntervalExactly(period: int, last: Time, now: Time)
    ensures IntervalDue(period, last, now).isDue <==> last + period <= now
    ensures now + IntervalDue(period, last, now).next == (if last + period <= now then now else last) + period
  {
  }

  /** The time of the schedule itself has come: the clock time, a period since the last run, or what the crontab or
      the sun says. */
  predicate ScheduleDue(c: Config, last: Time, now: Time, a: Answer) {
    && (c.clocked.Some? ==> c.clocked.value.content <= now)
    && (c.interval.Some? ==> last + c.interval.value.content <= now)
    && (c.crontab.Some? || c.solar.Some? ==> a.state.isDue)
  }

  /** A task is dispatched if and only if it is enabled, has started, has not expired, has not had its one run, and
      its schedule is due. */
  lemma FiresExactly(m: Model, own: Own, now: Time, a: Answer)
    requires OneSchedule(m.row.config)
    ensures Fires(Judge(m, own, now, a)) <==>
              && m.row.enabled
              && (m.row.config.startTime.Some? ==> m.row.config.startTime.value <= now)
              && (m.row.config.expires.Some? ==> now < m.row.config.expires.value)
              && (m.row.config.oneOff ==> m.row.totalRunCount == 0)
              && own.lastRunAt.Some? && ScheduleDue(m.row.config, own.lastRunAt.value, now, a)
  {
  }

  /** In particular an enabled, started, unexpired, unspent clocked task with a last run fires exactly from its clock
      time on. */
  lemma ClockedFiresExactly(m: Model, own: Own, now: Time, a: Answer)
    requires OneSchedule(m.row.config) && m.row.config.clocked.Some?
    requires m.row.enabled && m.row.totalRunCount == 0 && own.lastRunAt.Some?
    requires m.row.config.startTime.Some? ==> m.row.config.startTime.value <= now
    requires m.row.config.expires.Some? ==> now < m.row.config.expires.value
    ensures Fires(Judge(m, own, now, a)) <==> m.row.config.clocked.value.content <= now
  {
  }

  /** Which branch `is_due` takes. */
  lemma VerdictExactly(m: Model, own: Own, now: Time, a: Answer)
    ensures var c, v := m.row.config, Judge(m, own, now, a);
            var waiting := c.startTime.Some? && now < c.startTime.value;
            var over := c.expires.Some? && c.expires.value <= now;
            var spent := c.oneOff && m.row.totalRunCount > 0;
            && (v.Disabled? <==> !m.row.enabled)
            && (v.NotStarted? <==> m.row.enabled && waiting)
            && (v.Expired? <==> m.row.enabled && !waiting && over)
            && (v.OneOffDone? <==> m.row.enabled && !waiting && !over && spent)
            && (v.Broken? <==> m.row.enabled && !waiting && !over && !spent && own.lastRunAt.None?)
  {
  }

  /** What `is_due` returns: five seconds for a disabled task; before the start, the fewest whole seconds that reach
      the computed start, which for a crontab is the crontab's own; the never-check delay once it is over; and else
      what the schedule says. */
  lemma ReplyExactly(m: Model, own: Own, now: Time, a: Answer)
    requires OneSchedule(m.row.config)
    ensures var c, v := m.row.config, Judge(m, own, now, a);
            var s := Reply(v);
            && (v.Disabled? ==> s == SchedState(false, 5 * SECOND))
            && (v.NotStarted? ==>
                  var start := if c.crontab.Some? then a.start else c.startTime.value;
                  !s.isDue && s.next % SECOND == 0 && now + s.next - SECOND < start <= now + s.next)
            && (v.Expired? || v.OneOffDone? ==> s == SchedState(false, 100_000_000 * SECOND))
            && (v.Asked? ==> own.lastRunAt.Some? && s == v.state)
            && (v.Asked? && c.interval.Some? ==> s == IntervalDue(c.interval.value.content, own.lastRunAt.value, now))
            && (v.Asked? && c.clocked.Some? ==> s == ClockedDue(c.clocked.value.content, now))
            && (v.Asked? && (c.crontab.Some? || c.solar.Some?) ==> s == a.state)
  {
    if m.row.config.startTime.Some? {
      CeilBounds(DueStart(m.row.config, m.row.config.startTime.value, a) - now);
    }
  }

  /** The instance after the expiry branch and after the one-off branch. */
  lemma DisablingExactly(m: Model, now: Time)
    ensures var x, y := Expire(m, now), Retire(m, now);
            && x.pk == m.pk && y.pk == m.pk && x.noChanges && !y.noChanges
            && Cleaned(m.row.(enabled := false, dateChanged := Some(now)), x.row)
            && Cleaned(m.row.(enabled := false, dateChanged := Some(now), totalRunCount := 0), y.row)
  {
  }

  lemma CeilBounds(d: Time)
    ensures d <= CeilSeconds(d) * SECOND < d + SECOND
  {
  }

  /** A run is dispatched only for an enabled task inside its start and expiry bounds, a one-off task
      only before its first run, and an interval only a full period after the entry's last run. */
  lemma FiringGate(m: Model, own: Own, now: Time, a: Answer)
    requires Fires(Judge(m, own, now, a))
    ensures m.row.enabled
    ensures m.row.config.startTime.Some? ==> m.row.config.startTime.value <= now
    ensures m.row.config.expires.Some? ==> now < m.row.config.expires.value
    ensures m.row.config.oneOff ==> m.row.totalRunCount == 0
    ensures m.row.config.interval.Some? ==>
              own.lastRunAt.Some? && own.lastRunAt.value + m.row.config.interval.value.content <= now
    ensures m.row.config.clocked.Some? && OneSchedule(m.row.config) ==> m.row.config.clocked.value.content <= now
  {
  }

  /** Before the start time, the returned delay wakes the task no earlier than the computed start and
      less than one second after it, provided a crontab's start is not before the start time. */
  lemma StartDelay(m: Model, own: Own, now: Time, a: Answer)
    requires m.row.enabled && m.row.config.startTime.Some? && now < m.row.config.startTime.value
    requires m.row.config.crontab.Some? ==> m.row.config.startTime.value <= a.start
    ensures var start := DueStart(m.row.config, m.row.config.startTime.value, a);
            var s := Reply(Judge(m, own, now, a));
            !s.isDue && start <= now + s.next < start + SECOND
  {
    CeilBounds(DueStart(m.row.config, m.row.config.startTime.value, a) - now);
  }

  /** An interval task that has never run fires at its first check from `start_time` on, for every
      period up to thirty years. */
  lemma FirstCheckAtStart(pk: Pk, r: Row, loaded: Time, now: Time, a: Answer)
    requires RowOk(r) && r.enabled && r.lastRunAt.None? && r.totalRunCount == 0
    requires r.dateChanged.value <= now
    requires r.config.startTime.Some? && r.config.startTime.value <= now
    requires r.config.expires.Some? ==> now < r.config.expires.value
    requires r.config.interval.Some? && r.config.interval.value.content <= THIRTY_YEARS
    ensures Fires(Judge(Load(pk, r, loaded).model, Load(pk, r, loaded).own, now, a))
  {
  }

  /** A clocked task answers "due" at every check after its time, so only the run count stops it. */
  lemma ClockedForever(at: Time, now: Time, later: Time)
    requires ClockedDue(at, now).isDue && now <= later
    ensures ClockedDue(at, later).isDue
    ensures at <= now
  {
  }
}
