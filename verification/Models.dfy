/** The `PeriodicTask` table, what `save` does to a row, and the change row. */
module Models {
  import opened Base

  type Pk = nat

  datatype Crontab = Crontab(hour: string, zone: string, rest: string)

  /** A foreign key to a schedule row, and the content of that row as it was fetched. */
  datatype Ref<+T> = Ref(key: nat, content: T)

  /** The columns that users configure. The scheduler copies them but never computes them.
      `payload` stands for task, args, kwargs, priority and description. */
  datatype Config = Config(
    name: string,
    payload: string,
    interval: Option<Ref<int>>,
    crontab: Option<Ref<Crontab>>,
    solar: Option<Ref<string>>,
    clocked: Option<Ref<Time>>,
    queue: Option<string>,
    exchange: Option<string>,
    routingKey: Option<string>,
    headers: Option<string>,
    expires: Option<Time>,
    expireSeconds: Option<nat>,
    oneOff: bool,
    startTime: Option<Time>)

  datatype Row = Row(
    config: Config,
    enabled: bool,
    lastRunAt: Option<Time>,
    totalRunCount: nat,
    dateChanged: Option<Time>)

  /** The tables of schedule rows. */
  datatype Schedules = Schedules(
    intervals: map<nat, int>,
    crontabs: map<nat, Crontab>,
    solars: map<nat, string>,
    clockeds: map<nat, Time>)

  /** The shared database: task rows, shown with the content of the schedule rows that they refer to; the schedule
      tables; and the single `PeriodicTasks.last_update` value. */
  datatype Db = Db(rows: map<Pk, Row>, schedules: Schedules, lastUpdate: Option<Time>)

  datatype SaveError =
    NoSchedule | ManySchedules | ClockedNotOneOff | BothExpires | NameTaken | NullHeaders | NoScheduleRow | NoRow

  /******* Schedule rows *******/

  predicate Knows<T>(table: map<nat, T>, r: Option<Ref<T>>) {
    r.Some? ==> r.value.key in table
  }

  /** Every schedule row that the columns refer to exists. */
  predicate Known(s: Schedules, c: Config) {
    Knows(s.intervals, c.interval) && Knows(s.crontabs, c.crontab) && Knows(s.solars, c.solar)
    && Knows(s.clockeds, c.clocked)
  }

  function Refetched<T>(table: map<nat, T>, r: Option<Ref<T>>): Option<Ref<T>> {
    if r.Some? && r.value.key in table then Some(Ref(r.value.key, table[r.value.key])) else r
  }

  /** The columns with the content that the schedule tables have for their keys. */
  function Joined(s: Schedules, c: Config): Config {
    c.(interval := Refetched(s.intervals, c.interval),
       crontab := Refetched(s.crontabs, c.crontab),
       solar := Refetched(s.solars, c.solar),
       clocked := Refetched(s.clockeds, c.clocked))
  }

  function Bare<T>(r: Option<Ref<T>>, none: T): Option<Ref<T>> {
    if r.Some? then Some(Ref(r.value.key, none)) else r
  }

  /** The task's own columns: everything but the content of schedule rows. */
  function Columns(c: Config): Config {
    c.(interval := Bare(c.interval, 0),
       crontab := Bare(c.crontab, Crontab("", "", "")),
       solar := Bare(c.solar, ""),
       clocked := Bare(c.clocked, 0))
  }

  predicate SameColumns(c: Config, d: Config) {
    Columns(c) == Columns(d)
  }

  /** Against the same schedule tables, two configurations agree if and only if their own columns do. */
  lemma JoinedColumns(s: Schedules, c: Config, d: Config)
    requires Known(s, c) && Known(s, d)
    ensures Joined(s, c) == Joined(s, d) <==> SameColumns(c, d)
  {
    assert Columns(Joined(s, c)) == Columns(c);
    assert Columns(Joined(s, d)) == Columns(d);
    assert Joined(s, Columns(c)) == Joined(s, c);
    assert Joined(s, Columns(d)) == Joined(s, d);
  }

  /******* What a well-formed row is *******/

  function Blank(s: Option<string>): Option<string> {
    if s == Some("") then None else s
  }

  function Normalize(c: Config): Config {
    c.(queue := Blank(c.queue),
       exchange := Blank(c.exchange),
       routingKey := Blank(c.routingKey),
       headers := Blank(c.headers))
  }

  /** Exactly one of the four schedule columns is set. */
  predicate OneSchedule(c: Config) {
    || (c.interval.Some? && c.crontab.None? && c.solar.None? && c.clocked.None?)
    || (c.interval.None? && c.crontab.Some? && c.solar.None? && c.clocked.None?)
    || (c.interval.None? && c.crontab.None? && c.solar.Some? && c.clocked.None?)
    || (c.interval.None? && c.crontab.None? && c.solar.None? && c.clocked.Some?)
  }

  predicate ConfigOk(c: Config) {
    && OneSchedule(c)
    && (c.clocked.Some? ==> c.oneOff)
    && !(c.expires.Some? && c.expireSeconds.Some?)
  }

  /** The `headers` column does not take NULL, and `save` turns an empty text into NULL. */
  predicate HasHeaders(c: Config) {
    Blank(c.headers).Some?
  }

  /** What a row that went through `save` looks like. */
  predicate RowOk(r: Row) {
    && ConfigOk(r.config)
    && HasHeaders(r.config)
    && Normalize(r.config) == r.config
    && r.dateChanged.Some?
  }

  /** A disabled row has no last run. Full saves establish this; bulk toggles do not. */
  predicate Cleared(r: Row) {
    !r.enabled ==> r.lastRunAt.None?
  }

  ghost predicate UniqueNames(rows: map<Pk, Row>) {
    forall j, k :: j in rows && k in rows && rows[j].config.name == rows[k].config.name ==> j == k
  }

  ghost predicate RowsOk(rows: map<Pk, Row>) {
    && UniqueNames(rows)
    && forall k :: k in rows ==> RowOk(rows[k])
  }

  /** Foreign keys point to existing rows, and task rows show the content that these have now. */
  ghost predicate Consistent(rows: map<Pk, Row>, s: Schedules) {
    forall k :: k in rows ==> Known(s, rows[k].config) && Joined(s, rows[k].config) == rows[k].config
  }

  ghost predicate DbOk(db: Db) {
    RowsOk(db.rows) && Consistent(db.rows, db.schedules)
  }

  lemma NamesAreUnique(db: Db)
    requires DbOk(db)
    ensures UniqueNames(db.rows)
  {
  }

  /******* PeriodicTask.save *******/

  predicate Taken(rows: map<Pk, Row>, pk: Pk, name: string) {
    exists k :: k in rows && k != pk && rows[k].config.name == name
  }

  function Ones(c: Config): nat {
    (if c.interval.Some? then 1 else 0) + (if c.crontab.Some? then 1 else 0) +
    (if c.solar.Some? then 1 else 0) + (if c.clocked.Some? then 1 else 0)
  }

  /** `validate_unique`: the complaint about the name, the number of schedules, or a recurring clocked task. */
  function UniqueComplaint(rows: map<Pk, Row>, pk: Pk, c: Config): Option<SaveError> {
    if Taken(rows, pk, c.name) then Some(NameTaken)
    else if Ones(c) == 0 then Some(NoSchedule)
    else if Ones(c) > 1 then Some(ManySchedules)
    else if c.clocked.Some? && !c.oneOff then Some(ClockedNotOneOff)
    else None
  }

  /** `_clean_expires`, then `validate_unique`: the first complaint, if any. */
  function Complaint(rows: map<Pk, Row>, pk: Pk, c: Config): Option<SaveError> {
    if c.expireSeconds.Some? && c.expires.Some? then Some(BothExpires) else UniqueComplaint(rows, pk, c)
  }

  /** The instance as `save` leaves it before it reaches the table. */
  function Prepared(r: Row): Row {
    r.(config := Normalize(r.config), lastRunAt := if r.enabled then r.lastRunAt else None)
  }

  function Stored(r: Row, now: Time): Row {
    Prepared(r).(dateChanged := Some(now))
  }

  /** What the table shows after a save: own columns and keys are the instance's, content is the schedule tables'. */
  function Written(s: Schedules, r: Row): Row {
    r.(config := Joined(s, r.config))
  }

  function Changed(lastUpdate: Option<Time>, noChanges: bool, now: Time): Option<Time> {
    if noChanges then lastUpdate else Some(now)
  }

  /** A full-field save: an UPDATE that falls back to INSERT, so it also recreates a deleted row. */
  function FullSave(db: Db, pk: Pk, r: Row, noChanges: bool, now: Time): Result<Db, SaveError> {
    var e := Complaint(db.rows, pk, Normalize(r.config));
    if e.Some? then Err(e.value)
    else if !HasHeaders(r.config) then Err(NullHeaders)
    else if !Known(db.schedules, r.config) then Err(NoScheduleRow)
    else Ok(Db(db.rows[pk := Written(db.schedules, Stored(r, now))], db.schedules,
               Changed(db.lastUpdate, noChanges, now)))
  }

  /** `x or None` for a text column. */
  predicate NoBlank(x: Option<string>, y: Option<string>) {
    && (x == Some("") ==> y == None)
    && (x != Some("") ==> y == x)
  }

  /** An instance that `save` has cleaned: blanks are gone from four columns, a disabled task has no last run, and
      nothing else has changed. */
  predicate Cleaned(r: Row, r': Row) {
    var c, d := r.config, r'.config;
    && NoBlank(c.queue, d.queue) && NoBlank(c.exchange, d.exchange)
    && NoBlank(c.routingKey, d.routingKey) && NoBlank(c.headers, d.headers)
    && d.(queue := c.queue, exchange := c.exchange, routingKey := c.routingKey, headers := c.headers) == c
    && r'.enabled == r.enabled && r'.totalRunCount == r.totalRunCount && r'.dateChanged == r.dateChanged
    && (r.enabled ==> r'.lastRunAt == r.lastRunAt) && (!r.enabled ==> r'.lastRunAt == None)
  }

  lemma PreparedIsCleaned(r: Row, now: Time)
    ensures Cleaned(r, Prepared(r))
    ensures Stored(r, now).dateChanged == Some(now) && Stored(r, now).(dateChanged := r.dateChanged) == Prepared(r)
  {
  }

  /** The stored column has the instance's key, with the content that the table has for it. */
  predicate SameKey<T(==)>(x: Option<Ref<T>>, y: Option<Ref<T>>, table: map<nat, T>) {
    && (x.Some? <==> y.Some?)
    && (x.Some? ==> y.value.key == x.value.key && x.value.key in table && y.value.content == table[x.value.key])
  }

  /** The stored row, column by column, for the instance that was saved. */
  predicate HoldsInstance(s: Schedules, r: Row, row: Row, now: Time) {
    var c, d := r.config, row.config;
    && d.name == c.name && d.payload == c.payload
    && SameKey(c.interval, d.interval, s.intervals) && SameKey(c.crontab, d.crontab, s.crontabs)
    && SameKey(c.solar, d.solar, s.solars) && SameKey(c.clocked, d.clocked, s.clockeds)
    && NoBlank(c.queue, d.queue) && NoBlank(c.exchange, d.exchange) && NoBlank(c.routingKey, d.routingKey)
    && d.headers == c.headers && d.expires == c.expires && d.expireSeconds == c.expireSeconds
    && d.oneOff == c.oneOff && d.startTime == c.startTime
    && row.enabled == r.enabled && row.totalRunCount == r.totalRunCount && row.dateChanged == Some(now)
    && (r.enabled ==> row.lastRunAt == r.lastRunAt) && (!r.enabled ==> row.lastRunAt == None)
  }

  lemma WrittenHolds(s: Schedules, r: Row, now: Time)
    requires HasHeaders(r.config) && Known(s, r.config)
    ensures HoldsInstance(s, r, Written(s, Stored(r, now)), now)
  {
  }

  /** Two schedules of different types are set. */
  predicate TwoSchedules(c: Config) {
    || (c.interval.Some? && (c.crontab.Some? || c.solar.Some? || c.clocked.Some?))
    || (c.crontab.Some? && (c.solar.Some? || c.clocked.Some?))
    || (c.solar.Some? && c.clocked.Some?)
  }

  /** Which complaint a save makes, in the order of `_clean_expires`, `validate_unique` and the table. */
  lemma SaveErrorsExactly(db: Db, pk: Pk, r: Row, noChanges: bool, now: Time)
    requires FullSave(db, pk, r, noChanges, now).Err?
    ensures var c, e := r.config, FullSave(db, pk, r, noChanges, now).error;
            var both, taken := c.expires.Some? && c.expireSeconds.Some?, Taken(db.rows, pk, c.name);
            && (e == BothExpires <==> both)
            && (e == NameTaken <==> !both && taken)
            && (e == NoSchedule <==>
                  !both && !taken && c.interval.None? && c.crontab.None? && c.solar.None? && c.clocked.None?)
            && (e == ManySchedules <==> !both && !taken && TwoSchedules(c))
            && (e == ClockedNotOneOff <==>
                  !both && !taken && !TwoSchedules(c) && c.clocked.Some? && !c.oneOff)
            && (e == NullHeaders <==> ConfigOk(c) && !taken && !HasHeaders(c))
            && (e == NoScheduleRow <==> ConfigOk(c) && !taken && HasHeaders(c) && !Known(db.schedules, c))
            && e != NoRow
  {
    var c := Normalize(r.config);
    assert Ones(c) == 1 <==> OneSchedule(c);
    assert Ones(c) > 1 <==> TwoSchedules(c);
    assert ConfigOk(c) <==> ConfigOk(r.config);
  }

  /** The partial save complains as the full one does, but of a missing row instead of headers or schedule rows. */
  lemma PartialErrorsExactly(db: Db, pk: Pk, r: Row, noChanges: bool, now: Time)
    requires PartialSave(db, pk, r, noChanges, now).Err?
    ensures var e := PartialSave(db, pk, r, noChanges, now).error;
            && (e == NoRow <==> ConfigOk(r.config) && !Taken(db.rows, pk, r.config.name))
            && (e != NoRow ==> FullSave(db, pk, r, noChanges, now) == Err(e))
  {
    var c := Normalize(r.config);
    assert Ones(c) == 1 <==> OneSchedule(c);
    assert ConfigOk(c) <==> ConfigOk(r.config);
  }

  lemma SaveAccepts(db: Db, pk: Pk, r: Row, noChanges: bool, now: Time)
    ensures FullSave(db, pk, r, noChanges, now).Ok? <==>
            && ConfigOk(r.config) && HasHeaders(r.config) && !Taken(db.rows, pk, r.config.name)
            && Known(db.schedules, r.config)
  {
    var c := Normalize(r.config);
    assert ConfigOk(c) <==> ConfigOk(r.config);
    assert Ones(c) == 1 <==> OneSchedule(c);
  }

  lemma StoredOk(r: Row, s: Schedules, now: Time)
    requires ConfigOk(r.config) && HasHeaders(r.config)
    ensures RowOk(Stored(r, now)) && Cleared(Stored(r, now))
    ensures Stored(r, now).config == Normalize(r.config) && Stored(r, now).config.name == r.config.name
    ensures Known(s, r.config) ==> Known(s, Stored(r, now).config)
  {
  }

  /** `save` accepts exactly the well-formed configurations with headers under a free name whose schedule row exists,
      keeps the tables well formed, writes the instance's own columns and no content, touches no other row, and
      clears the last run of a disabled row. */
  lemma SaveExact(db: Db, pk: Pk, r: Row, noChanges: bool, now: Time)
    requires DbOk(db)
    ensures FullSave(db, pk, r, noChanges, now).Ok? <==>
            && ConfigOk(r.config) && HasHeaders(r.config) && !Taken(db.rows, pk, r.config.name)
            && Known(db.schedules, r.config)
    ensures FullSave(db, pk, r, noChanges, now).Ok? ==>
              var out := FullSave(db, pk, r, noChanges, now).value;
              && DbOk(out) && out.schedules == db.schedules
              && out.rows.Keys == db.rows.Keys + {pk}
              && SameColumns(out.rows[pk].config, Normalize(r.config))
              && HoldsInstance(db.schedules, r, out.rows[pk], now)
              && (forall k :: k in db.rows && k != pk ==> out.rows[k] == db.rows[k])
              && Cleared(out.rows[pk])
              && (noChanges ==> out.lastUpdate == db.lastUpdate)
              && (!noChanges ==> out.lastUpdate == Some(now))
  {
    hide RowOk, Normalize, Complaint, ConfigOk, Columns, Joined, Known, Stored, HasHeaders, HoldsInstance;
    SaveAccepts(db, pk, r, noChanges, now);
    if FullSave(db, pk, r, noChanges, now).Ok? {
      WrittenHolds(db.schedules, r, now);
      StoredOk(r, db.schedules, now);
      WrittenOk(db.schedules, Stored(r, now));
      OneMoreRow(db.rows, pk, Written(db.schedules, Stored(r, now)));
    }
  }

  lemma WrittenOk(s: Schedules, r: Row)
    requires RowOk(r) && Known(s, r.config)
    ensures RowOk(Written(s, r)) && Known(s, Written(s, r).config)
    ensures Joined(s, Written(s, r).config) == Written(s, r).config
    ensures SameColumns(Written(s, r).config, r.config) && Written(s, r).config.name == r.config.name
  {
  }

  lemma OneMoreRow(rows: map<Pk, Row>, pk: Pk, r: Row)
    requires RowsOk(rows) && RowOk(r) && !Taken(rows, pk, r.config.name)
    ensures RowsOk(rows[pk := r])
  {
    hide RowOk;
    var rows' := rows[pk := r];
    forall j, k | j in rows' && k in rows' && rows'[j].config.name == rows'[k].config.name
      ensures j == k
    {
      assert j != pk && k == pk ==> Taken(rows, pk, r.config.name);
      assert k != pk && j == pk ==> Taken(rows, pk, r.config.name);
    }
  }

  /** `save(update_fields=[enabled, total_run_count, last_run_at, date_changed])`: the other columns of
      the row keep whatever the database holds, and a row that is gone is an error. */
  function PartialSave(db: Db, pk: Pk, r: Row, noChanges: bool, now: Time): Result<Db, SaveError> {
    var e := Complaint(db.rows, pk, Normalize(r.config));
    if e.Some? then Err(e.value)
    else if pk !in db.rows then Err(NoRow)
    else
      var row := Stored(r, now).(config := db.rows[pk].config);
      Ok(Db(db.rows[pk := row], db.schedules, Changed(db.lastUpdate, noChanges, now)))
  }

  /** The partial save changes no configuration column of any row, whatever the stale instance holds. */
  lemma PartialSaveExact(db: Db, pk: Pk, r: Row, noChanges: bool, now: Time)
    requires DbOk(db)
    ensures PartialSave(db, pk, r, noChanges, now).Ok? <==>
            ConfigOk(r.config) && !Taken(db.rows, pk, r.config.name) && pk in db.rows
    ensures PartialSave(db, pk, r, noChanges, now).Ok? ==>
              var out := PartialSave(db, pk, r, noChanges, now).value;
              && DbOk(out) && out.schedules == db.schedules
              && out.rows.Keys == db.rows.Keys
              && (forall k :: k in db.rows ==> out.rows[k].config == db.rows[k].config)
              && (forall k :: k in db.rows && k != pk ==> out.rows[k] == db.rows[k])
              && out.rows[pk] == Row(db.rows[pk].config, r.enabled, if r.enabled then r.lastRunAt else None,
                                     r.totalRunCount, Some(now))
              && (noChanges ==> out.lastUpdate == db.lastUpdate)
              && (!noChanges ==> out.lastUpdate == Some(now))
  {
    assert ConfigOk(Normalize(r.config)) <==> ConfigOk(r.config);
    assert Ones(r.config) == 1 <==> OneSchedule(r.config);
    if PartialSave(db, pk, r, noChanges, now).Ok? {
      SameConfigKeepsRowsOk(db.rows, PartialSave(db, pk, r, noChanges, now).value.rows);
    }
  }

  /******* ModelEntry.save: write three fields through a fresh read *******/

  /** What `ModelEntry.save` makes of the row it just read. */
  function WithRunData(r: Row, last: Option<Time>, count: nat): Row {
    r.(lastRunAt := last, totalRunCount := count)
  }

  /** The read and the write are two statements. Whatever happened to the tables in between, the write goes through
      unless another row took the name that was read or the schedule row is gone. It puts the task's own columns and
      the enabled flag back to what was read, so it leaves a changed row alone exactly when none of these was
      changed; a schedule row that was edited in place stays edited. It re-creates a row that was deleted. */
  lemma SaveBetweenReadAndWrite(db: Db, pk: Pk, read: Row, last: Option<Time>, count: nat,
                                noChanges: bool, now: Time)
    requires DbOk(db) && RowOk(read)
    ensures FullSave(db, pk, WithRunData(read, last, count), noChanges, now).Ok? <==>
            !Taken(db.rows, pk, read.config.name) && Known(db.schedules, read.config)
    ensures FullSave(db, pk, WithRunData(read, last, count), noChanges, now).Ok? ==>
              var out := FullSave(db, pk, WithRunData(read, last, count), noChanges, now).value;
              && DbOk(out) && out.schedules == db.schedules && out.rows.Keys == db.rows.Keys + {pk}
              && (forall k :: k in db.rows && k != pk ==> out.rows[k] == db.rows[k])
              && out.rows[pk] == Row(Joined(db.schedules, read.config), read.enabled,
                                     if read.enabled then last else None, count, Some(now))
              && out.lastUpdate == Changed(db.lastUpdate, noChanges, now)
              && (pk in db.rows ==>
                    ((out.rows[pk].config == db.rows[pk].config && out.rows[pk].enabled == db.rows[pk].enabled) <==>
                     (SameColumns(read.config, db.rows[pk].config) && read.enabled == db.rows[pk].enabled)))
  {
    hide Joined, Columns, Known;
    SaveExact(db, pk, WithRunData(read, last, count), noChanges, now);
    if pk in db.rows && Known(db.schedules, read.config) {
      JoinedColumns(db.schedules, read.config, db.rows[pk].config);
    }
  }

  /******* from_entry *******/

  datatype Spec = Every(period: int) | AtCrontab(crontab: Crontab) | AtSolar(solar: string) | AtClock(time: Time)

  /** One item of `beat_schedule`: a schedule, the task, its options, and the columns that an item may set besides.
      An item may also set `expires` or `start_time` to nothing. */
  datatype ConfEntry = ConfEntry(spec: Spec, payload: string,
                                 oneOff: Option<bool>, enabled: Option<bool>,
                                 expires: Option<Option<Time>>, startTime: Option<Option<Time>>,
                                 queue: Option<string>, exchange: Option<string>, routingKey: Option<string>,
                                 headers: string, expireSeconds: Option<nat>)

  /** `from_schedule` finds the schedule row of this content, or makes a new one. */
  predicate KeyFits(s: Schedules, spec: Spec, key: nat) {
    match spec
    case Every(p) => key in s.intervals ==> s.intervals[key] == p
    case AtCrontab(c) => key in s.crontabs ==> s.crontabs[key] == c
    case AtSolar(x) => key in s.solars ==> s.solars[key] == x
    case AtClock(t) => key in s.clockeds ==> s.clockeds[key] == t
  }

  function WithRow(s: Schedules, spec: Spec, key: nat): Schedules {
    match spec
    case Every(p) => s.(intervals := s.intervals[key := p])
    case AtCrontab(c) => s.(crontabs := s.crontabs[key := c])
    case AtSolar(x) => s.(solars := s.solars[key := x])
    case AtClock(t) => s.(clockeds := s.clockeds[key := t])
  }

  /** `to_model_schedule`: the schedule row is saved first, and that bumps. */
  function WithSchedule(db: Db, spec: Spec, key: nat, now: Time): Db {
    Db(db.rows, WithRow(db.schedules, spec, key), Some(now))
  }

  /** `_unpack_fields`: what `update_or_create` writes over a row, or over the defaults of a new one. */
  function Unpack(r: Row, e: ConfEntry, key: nat): Row {
    r.(enabled := Or(e.enabled, r.enabled),
       config := r.config.(
         payload := e.payload,
         interval := if e.spec.Every? then Some(Ref(key, e.spec.period)) else None,
         crontab := if e.spec.AtCrontab? then Some(Ref(key, e.spec.crontab)) else None,
         solar := if e.spec.AtSolar? then Some(Ref(key, e.spec.solar)) else None,
         clocked := if e.spec.AtClock? then Some(Ref(key, e.spec.time)) else None,
         oneOff := Or(e.oneOff, r.config.oneOff),
         expires := Or(e.expires, r.config.expires),
         startTime := Or(e.startTime, r.config.startTime),
         queue := e.queue, exchange := e.exchange, routingKey := e.routingKey,
         headers := Some(e.headers),
         expireSeconds := e.expireSeconds))
  }

  /** A row that `update_or_create` is about to create. */
  function NewRow(name: string): Row {
    Row(Config(name, "", None, None, None, None, None, None, None, Some("{}"), None, None, false, None),
        true, None, 0, None)
  }

  /** The row of that name, or a new one under a fresh key. */
  ghost predicate Denotes(rows: map<Pk, Row>, pk: Pk, name: string) {
    if pk in rows then rows[pk].config.name == name
    else forall k :: k in rows ==> rows[k].config.name != name
  }

  function EntryRow(rows: map<Pk, Row>, pk: Pk, name: string, e: ConfEntry, key: nat): Row {
    Unpack(if pk in rows then rows[pk] else NewRow(name), e, key)
  }

  /** `from_entry`, after the schedule row was saved. Depending on the release of Django, `update_or_create` updates
      an existing row as a whole or only in the columns that the item sets, and then `last_run_at` stays. */
  function FromEntry(db: Db, pk: Pk, name: string, e: ConfEntry, key: nat, whole: bool, now: Time)
    : Result<Db, SaveError>
  {
    var r := FullSave(WithSchedule(db, e.spec, key, now), pk, EntryRow(db.rows, pk, name, e, key), false, now);
    if r.Err? || whole || pk !in db.rows then r
    else Ok(r.value.(rows := r.value.rows[pk := r.value.rows[pk].(lastRunAt := db.rows[pk].lastRunAt)]))
  }

  /** Saving the schedule row adds or keeps that row, touches no task, and bumps, whatever becomes of the task row. */
  lemma WithScheduleOk(db: Db, spec: Spec, key: nat, now: Time)
    requires DbOk(db) && KeyFits(db.schedules, spec, key)
    ensures var out := WithSchedule(db, spec, key, now);
            && DbOk(out) && out.rows == db.rows && out.lastUpdate == Some(now)
            && RowAdded(db.schedules, out.schedules, spec, key)
  {
    hide RowsOk;
    var s := WithRow(db.schedules, spec, key);
    forall k | k in db.rows ensures Known(s, db.rows[k].config) && Joined(s, db.rows[k].config) == db.rows[k].config {
      assert Known(db.schedules, db.rows[k].config);
    }
  }

  /** The configuration that an item makes of a row. */
  lemma EntryConfigExact(s: Schedules, base: Row, e: ConfEntry, key: nat)
    requires Joined(s, base.config) == base.config || base == NewRow(base.config.name)
    ensures var c := Unpack(base, e, key).config;
            && c.name == base.config.name
            && (ConfigOk(c) <==>
                  && (e.spec.AtClock? ==> Or(e.oneOff, base.config.oneOff))
                  && !(e.expireSeconds.Some? && Or(e.expires, base.config.expires).Some?))
            && (HasHeaders(c) <==> e.headers != "")
            && Known(WithRow(s, e.spec, key), c)
            && Joined(WithRow(s, e.spec, key), Normalize(c)) == Normalize(c)
  {
  }

  /** The save of `from_entry`. */
  lemma FromEntrySaves(db: Db, pk: Pk, name: string, e: ConfEntry, key: nat, now: Time)
    requires DbOk(db) && Denotes(db.rows, pk, name) && KeyFits(db.schedules, e.spec, key)
    ensures var base, c := if pk in db.rows then db.rows[pk] else NewRow(name), EntryRow(db.rows, pk, name, e, key).config;
            var r := FromEntry(db, pk, name, e, key, true, now);
            && (r.Ok? <==>
                  && (e.spec.AtClock? ==> Or(e.oneOff, base.config.oneOff))
                  && !(e.expireSeconds.Some? && Or(e.expires, base.config.expires).Some?)
                  && e.headers != "")
            && (r.Ok? ==>
                  && DbOk(r.value) && r.value.rows.Keys == db.rows.Keys + {pk}
                  && (forall k :: k in db.rows && k != pk ==> r.value.rows[k] == db.rows[k])
                  && r.value.rows[pk] == Stored(EntryRow(db.rows, pk, name, e, key), now)
                  && r.value.rows[pk].config.name == name
                  && RowAdded(db.schedules, r.value.schedules, e.spec, key)
                  && r.value.lastUpdate == Some(now))
  {
    hide ConfigOk, HasHeaders, Unpack, RowsOk, Consistent, WithRow, Columns, Complaint, Joined, Known, RowAdded;
    var row, mid := EntryRow(db.rows, pk, name, e, key), WithSchedule(db, e.spec, key, now);
    WithScheduleOk(db, e.spec, key, now);
    NewName(db, pk, name);
    EntryConfigExact(db.schedules, if pk in db.rows then db.rows[pk] else NewRow(name), e, key);
    SaveExact(mid, pk, row, false, now);
  }

  lemma NewName(db: Db, pk: Pk, name: string)
    requires DbOk(db) && Denotes(db.rows, pk, name)
    ensures !Taken(db.rows, pk, name)
    ensures pk in db.rows ==> Joined(db.schedules, db.rows[pk].config) == db.rows[pk].config
  {
    hide RowOk, Joined;
  }

  /** The schedule row of the item is in its table under the key; every other schedule row is as it was. */
  predicate RowAdded(s: Schedules, s': Schedules, spec: Spec, key: nat) {
    match spec
    case Every(p) =>
      && s'.(intervals := s.intervals) == s && s'.intervals.Keys == s.intervals.Keys + {key}
      && s'.intervals[key] == p && forall j :: j in s.intervals && j != key ==> s'.intervals[j] == s.intervals[j]
    case AtCrontab(c) =>
      && s'.(crontabs := s.crontabs) == s && s'.crontabs.Keys == s.crontabs.Keys + {key}
      && s'.crontabs[key] == c && forall j :: j in s.crontabs && j != key ==> s'.crontabs[j] == s.crontabs[j]
    case AtSolar(x) =>
      && s'.(solars := s.solars) == s && s'.solars.Keys == s.solars.Keys + {key}
      && s'.solars[key] == x && forall j :: j in s.solars && j != key ==> s'.solars[j] == s.solars[j]
    case AtClock(t) =>
      && s'.(clockeds := s.clockeds) == s && s'.clockeds.Keys == s.clockeds.Keys + {key}
      && s'.clockeds[key] == t && forall j :: j in s.clockeds && j != key ==> s'.clockeds[j] == s.clockeds[j]
  }

  /** The one schedule column of the item's type is set, with the item's content. */
  predicate OnlySchedule(c: Config, spec: Spec, key: nat) {
    && (c.interval == if spec.Every? then Some(Ref(key, spec.period)) else None)
    && (c.crontab == if spec.AtCrontab? then Some(Ref(key, spec.crontab)) else None)
    && (c.solar == if spec.AtSolar? then Some(Ref(key, spec.solar)) else None)
    && (c.clocked == if spec.AtClock? then Some(Ref(key, spec.time)) else None)
  }

  /** A column that the item may set, else keeps its value. */
  predicate SetOrKept<T(==)>(item: Option<T>, before: T, after: T) {
    && (item.Some? ==> after == item.value)
    && (item.None? ==> after == before)
  }

  /** The stored row, column by column, for an item and what was there before. */
  predicate HoldsItem(e: ConfEntry, key: nat, enabled: bool, oneOff: bool, expires: Option<Time>,
                      startTime: Option<Time>, row: Row) {
    var c := row.config;
    && c.payload == e.payload && c.headers == Some(e.headers) && c.expireSeconds == e.expireSeconds
    && NoBlank(e.queue, c.queue) && NoBlank(e.exchange, c.exchange) && NoBlank(e.routingKey, c.routingKey)
    && OnlySchedule(c, e.spec, key)
    && SetOrKept(e.enabled, enabled, row.enabled) && SetOrKept(e.oneOff, oneOff, c.oneOff)
    && SetOrKept(e.expires, expires, c.expires) && SetOrKept(e.startTime, startTime, c.startTime)
  }

  lemma EntryHoldsItem(base: Row, e: ConfEntry, key: nat, now: Time)
    requires e.headers != ""
    ensures HoldsItem(e, key, base.enabled, base.config.oneOff, base.config.expires, base.config.startTime,
                      Stored(Unpack(base, e, key), now))
    ensures var row := Stored(Unpack(base, e, key), now);
            && row.totalRunCount == base.totalRunCount && row.dateChanged == Some(now)
            && row.lastRunAt == if row.enabled then base.lastRunAt else None
  {
  }

  /** `from_entry` over an existing row of any schedule type, or where there is none: the save goes through unless
      the result would be a clocked task that is not one-off, or would have both expiries, or the text of the
      headers is empty (JSON text never is). Each column is then the item's, or what it was, or for a new row the
      default: enabled, recurring, without expiry, start time or runs. No other task row and no other schedule row
      is touched, and the timestamp moves. A disabled row is left without a last run unless only the item's columns
      are updated and the row had one. */
  lemma FromEntryExact(db: Db, pk: Pk, name: string, e: ConfEntry, key: nat, whole: bool, now: Time)
    requires DbOk(db) && Denotes(db.rows, pk, name) && KeyFits(db.schedules, e.spec, key)
    ensures var oneOff := if e.oneOff.Some? then e.oneOff.value else pk in db.rows && db.rows[pk].config.oneOff;
            var expires := if e.expires.Some? then e.expires.value
                           else if pk in db.rows then db.rows[pk].config.expires else None;
            FromEntry(db, pk, name, e, key, whole, now).Ok? <==>
              && (e.spec.AtClock? ==> oneOff)
              && !(e.expireSeconds.Some? && expires.Some?)
              && e.headers != ""
    ensures FromEntry(db, pk, name, e, key, whole, now).Ok? ==>
              var out := FromEntry(db, pk, name, e, key, whole, now).value;
              && DbOk(out) && out.rows.Keys == db.rows.Keys + {pk}
              && (forall k :: k in db.rows && k != pk ==> out.rows[k] == db.rows[k])
              && RowAdded(db.schedules, out.schedules, e.spec, key)
              && out.lastUpdate == Some(now)
    ensures FromEntry(db, pk, name, e, key, whole, now).Ok? ==>
              var row := FromEntry(db, pk, name, e, key, whole, now).value.rows[pk];
              && row.config.name == name && row.dateChanged == Some(now)
              && (pk in db.rows ==>
                    var was := db.rows[pk];
                    && HoldsItem(e, key, was.enabled, was.config.oneOff, was.config.expires, was.config.startTime, row)
                    && row.totalRunCount == was.totalRunCount
                    && row.lastRunAt == (if whole && !row.enabled then None else was.lastRunAt))
              && (pk !in db.rows ==>
                    && HoldsItem(e, key, true, false, None, None, row)
                    && row.totalRunCount == 0 && row.lastRunAt.None?)
  {
    hide RowOk, Joined, Known, Unpack, ConfigOk, FullSave, DbOk, Normalize, Stored, HoldsItem, WithRow, RowAdded;
    var base := if pk in db.rows then db.rows[pk] else NewRow(name);
    FromEntrySaves(db, pk, name, e, key, now);
    var full := FromEntry(db, pk, name, e, key, true, now);
    if full.Ok? {
      SameConfigKeepsDbOk(full.value, FromEntry(db, pk, name, e, key, whole, now).value);
      EntryHoldsItem(base, e, key, now);
      HoldsItemLooksPast(e, key, base, full.value.rows[pk], FromEntry(db, pk, name, e, key, whole, now).value.rows[pk]);
    }
  }

  /** The item says nothing of the last run. */
  lemma HoldsItemLooksPast(e: ConfEntry, key: nat, base: Row, row: Row, row': Row)
    requires row' == row.(lastRunAt := row'.lastRunAt)
    ensures HoldsItem(e, key, base.enabled, base.config.oneOff, base.config.expires, base.config.startTime, row) ==>
            HoldsItem(e, key, base.enabled, base.config.oneOff, base.config.expires, base.config.startTime, row')
  {
  }

  lemma SameConfigKeepsDbOk(db: Db, db': Db)
    requires DbOk(db) && db'.rows.Keys == db.rows.Keys && db'.schedules == db.schedules
    requires forall k :: k in db.rows ==>
               && db'.rows[k].config == db.rows[k].config
               && (db.rows[k].dateChanged.Some? ==> db'.rows[k].dateChanged.Some?)
    ensures DbOk(db')
  {
    hide Joined, Known;
    assert forall k :: k in db.rows ==> RowOk(db.rows[k]);
    SameConfigKeepsRowsOk(db.rows, db'.rows);
  }

  /******* Admin actions: bulk updates that bypass save *******/

  function EnableTasks(rows: map<Pk, Row>, chosen: set<Pk>): map<Pk, Row> {
    map k | k in rows :: if k in chosen then rows[k].(enabled := true) else rows[k]
  }

  function DisableTasks(rows: map<Pk, Row>, chosen: set<Pk>): map<Pk, Row> {
    map k | k in rows :: if k in chosen then rows[k].(enabled := false, lastRunAt := None) else rows[k]
  }

  function ToggleTasks(rows: map<Pk, Row>, chosen: set<Pk>): map<Pk, Row> {
    map k | k in rows :: if k in chosen then rows[k].(enabled := !rows[k].enabled) else rows[k]
  }

  /** What the three actions change: the chosen rows are on, or off and without a last run, or the other way round
      with the last run left; nothing else of them and nothing of other rows changes. */
  lemma AdminActionsExactly(rows: map<Pk, Row>, chosen: set<Pk>)
    ensures EnableTasks(rows, chosen).Keys == DisableTasks(rows, chosen).Keys == ToggleTasks(rows, chosen).Keys == rows.Keys
    ensures forall k :: k in rows && k !in chosen ==>
              EnableTasks(rows, chosen)[k] == DisableTasks(rows, chosen)[k] == ToggleTasks(rows, chosen)[k] == rows[k]
    ensures forall k :: k in rows && k in chosen ==>
              var on, off, other := EnableTasks(rows, chosen)[k], DisableTasks(rows, chosen)[k], ToggleTasks(rows, chosen)[k];
              && on.enabled && on.(enabled := rows[k].enabled) == rows[k]
              && !off.enabled && off.lastRunAt == None
              && off.(enabled := rows[k].enabled, lastRunAt := rows[k].lastRunAt) == rows[k]
              && other.enabled != rows[k].enabled && other.(enabled := rows[k].enabled) == rows[k]
  {
  }

  lemma AdminActionsKeepRowsOk(rows: map<Pk, Row>, chosen: set<Pk>)
    requires RowsOk(rows)
    ensures RowsOk(EnableTasks(rows, chosen))
    ensures RowsOk(DisableTasks(rows, chosen))
    ensures RowsOk(ToggleTasks(rows, chosen))
  {
    SameConfigKeepsRowsOk(rows, EnableTasks(rows, chosen));
    SameConfigKeepsRowsOk(rows, DisableTasks(rows, chosen));
    SameConfigKeepsRowsOk(rows, ToggleTasks(rows, chosen));
  }

  /** Well-formedness of the table is about configurations only. */
  lemma SameConfigKeepsRowsOk(rows: map<Pk, Row>, rows': map<Pk, Row>)
    requires RowsOk(rows) && rows'.Keys == rows.Keys
    requires forall k :: k in rows ==> rows'[k].config == rows[k].config && rows'[k].dateChanged.Some?
    ensures RowsOk(rows')
  {
    forall k | k in rows' ensures RowOk(rows'[k]) {
      assert RowOk(rows[k]);
    }
    forall j, k | j in rows' && k in rows' && rows'[j].config.name == rows'[k].config.name
      ensures j == k
    {
      assert rows[j].config.name == rows[k].config.name;
    }
  }

  /** Toggling keeps "disabled means no last run" exactly when no chosen row is enabled and has run. */
  lemma ToggleClears(rows: map<Pk, Row>, chosen: set<Pk>)
    requires forall k :: k in rows ==> Cleared(rows[k])
    ensures (forall k :: k in rows ==> Cleared(ToggleTasks(rows, chosen)[k])) <==>
            (forall k :: k in rows && k in chosen && rows[k].enabled ==> rows[k].lastRunAt.None?)
  {
    var after := ToggleTasks(rows, chosen);
    if forall k :: k in rows ==> Cleared(after[k]) {
      forall k | k in rows && k in chosen && rows[k].enabled
        ensures rows[k].lastRunAt.None?
      {
        assert Cleared(after[k]);
      }
    }
  }
}
