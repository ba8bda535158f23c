/** The query of `enabled_models_qs` over the relational tables, with SQL's three-valued logic, and the plain
    per-row filter that it amounts to. */
module CandidateQuery {
  import opened Base
  import opened Models
  import opened Candidates
  import opened Beats

  /******* Three-valued logic *******/

  datatype Tri = T | F | Null

  function Of(b: bool): Tri { if b then T else F }

  function And(a: Tri, b: Tri): Tri {
    if a == F || b == F then F else if a == T && b == T then T else Null
  }

  function Not(a: Tri): Tri {
    match a
    case T => F
    case F => T
    case Null => Null
  }

  /** `x IN s`; NULL is in no list, and not outside one either, unless the list is empty. */
  function In(x: Option<nat>, s: set<nat>): Tri {
    if s == {} then F else if x.None? then Null else Of(x.value in s)
  }

  /** A comparison of a column with an outer reference. */
  function Equals(x: nat, y: Option<nat>): Tri {
    if y.None? then Null else Of(x == y.value)
  }

  /******* The query *******/

  /** The foreign key column. The query looks at nothing else of a task's schedules. */
  function KeyOf<A>(r: Option<Ref<A>>): Option<nat> {
    if r.Some? then Some(r.value.key) else None
  }

  /** The zones of `_get_unique_timezone_names`, with their offsets. */
  function Offsets(s: Schedules, offset: string -> int): map<string, int> {
    map c | c in s.crontabs :: s.crontabs[c].zone := offset(s.crontabs[c].zone)
  }

  /** `excluded_hour_task_ids`: crontabs with a plain hour whose server hour is not among those to include. */
  function ExcludedCrontabs(s: Schedules, f: Filter): set<nat> {
    set c | c in s.crontabs && ListedHour(s.crontabs[c].hour) && HoursMiss(f, s.crontabs[c])
  }

  /** `hour__in=valid_numeric_hours`: what the cast and the sum are applied to. */
  predicate ListedHour(hour: string)
    ensures ListedHour(hour) <==> PlainHour(hour)
  {
    HourFormatsExact(hour);
    hour in ValidHourFormats()
  }

  predicate HoursMiss(f: Filter, c: Crontab)
    requires ListedHour(c.hour)
  {
    ServerHour(f, c) !in HoursToInclude(f.serverHour)
  }

  /** `Exists(future_clocked_tasks)`: some clocked row satisfies the subquery's condition. */
  predicate FutureClocked(s: Schedules, r: Row, cutoff: Time) {
    exists c :: c in s.clockeds && And(Equals(c, KeyOf(r.config.clocked)), Of(s.clockeds[c] > cutoff)) == T
  }

  /** `Q(crontab__isnull=False) & Q(crontab__id__in=excluded_hour_task_ids)`. */
  function CrontabExclusion(s: Schedules, f: Filter, r: Row): Tri {
    And(Of(r.config.crontab.Some?), In(KeyOf(r.config.crontab), ExcludedCrontabs(s, f)))
  }

  /** The WHERE clause: enabled, no future clocked row, and the exclusion negated. */
  function Where(s: Schedules, f: Filter, r: Row): Tri {
    And(And(Of(r.enabled), Of(!FutureClocked(s, r, f.cutoff))), Not(CrontabExclusion(s, f, r)))
  }

  function Selected(db: Db, f: Filter): set<Pk> {
    set k | k in db.rows && Where(db.schedules, f, db.rows[k]) == T
  }

  /******* What it selects *******/

  /** Task rows show what the schedule tables hold. */
  lemma ShownContent(db: Db, k: Pk)
    requires Consistent(db.rows, db.schedules) && k in db.rows
    ensures var c := db.rows[k].config;
            && (c.clocked.Some? ==>
                  && c.clocked.value.key in db.schedules.clockeds
                  && c.clocked.value.content == db.schedules.clockeds[c.clocked.value.key])
            && (c.crontab.Some? ==>
                  && c.crontab.value.key in db.schedules.crontabs
                  && c.crontab.value.content == db.schedules.crontabs[c.crontab.value.key])
  {
    assert Known(db.schedules, db.rows[k].config);
  }

  lemma FutureClockedExact(db: Db, k: Pk, cutoff: Time)
    requires Consistent(db.rows, db.schedules) && k in db.rows
    ensures FutureClocked(db.schedules, db.rows[k], cutoff) <==>
            db.rows[k].config.clocked.Some? && db.rows[k].config.clocked.value.content > cutoff
  {
    hide Consistent;
    ShownContent(db, k);
    var s, c := db.schedules, db.rows[k].config.clocked;
    if c.Some? && c.value.content > cutoff {
      assert And(Equals(c.value.key, KeyOf(c)), Of(s.clockeds[c.value.key] > cutoff)) == T;
    }
  }

  lemma ExclusionExact(db: Db, f: Filter, k: Pk)
    requires Consistent(db.rows, db.schedules) && k in db.rows
    ensures CrontabExclusion(db.schedules, f, db.rows[k]) == T <==>
            db.rows[k].config.crontab.Some? && CrontabExcluded(f, db.rows[k].config.crontab.value.content)
    ensures CrontabExclusion(db.schedules, f, db.rows[k]) != Null
  {
    hide Consistent, ListedHour, PlainHour, ServerHour;
    ShownContent(db, k);
    var s, c := db.schedules, db.rows[k].config.crontab;
    if c.Some? {
      assert c.value.key in ExcludedCrontabs(s, f) <==> CrontabExcluded(f, c.value.content);
    }
  }

  /** The query returns exactly the rows that the plain filter keeps. */
  lemma QueryIsFilter(db: Db, f: Filter)
    requires Consistent(db.rows, db.schedules)
    ensures Selected(db, f) == set k | k in db.rows && Keep(f, db.rows[k])
  {
    hide Consistent, FutureClocked, CrontabExclusion, CrontabExcluded;
    forall k | k in db.rows
      ensures Where(db.schedules, f, db.rows[k]) == T <==> Keep(f, db.rows[k])
    {
      FutureClockedExact(db, k, f.cutoff);
      ExclusionExact(db, f, k);
    }
  }

  /** What a reload brings into memory is what the query returns: one entry for each selected row, under its name. */
  lemma ReloadIsTheQuery(db: Db, f: Filter, now: Time)
    requires DbOk(db)
    ensures forall n :: n in Fresh(db.rows, f, now) <==> exists k :: k in Selected(db, f) && db.rows[k].config.name == n
  {
    hide RowOk, Consistent, Where, Keep;
    QueryIsFilter(db, f);
    assert UniqueNames(db.rows);
    forall n ensures n in Fresh(db.rows, f, now) <==> exists k :: k in Selected(db, f) && db.rows[k].config.name == n {
      if n in Fresh(db.rows, f, now) {
        var k := FreshFrom(db.rows, f, now, n);
        assert k in Selected(db, f);
      }
      if k :| k in Selected(db, f) && db.rows[k].config.name == n {
        FreshHas(db.rows, f, now, k);
      }
    }
  }

  /** Tasks without a crontab and crontabs with any other hour expression are never excluded by their hour. */
  lemma OnlyPlainHoursAreExcluded(db: Db, f: Filter, k: Pk)
    requires Consistent(db.rows, db.schedules) && k in db.rows && db.rows[k].enabled
    requires db.rows[k].config.clocked.None?
    requires db.rows[k].config.crontab.Some? ==> !PlainHour(db.rows[k].config.crontab.value.content.hour)
    ensures k in Selected(db, f)
  {
    QueryIsFilter(db, f);
  }

  /** Why the exclusion names the null case: without it, an enabled task without a crontab is lost as soon as
      any crontab at all is excluded. */
  lemma NullGuardIsNeeded(s: Schedules, f: Filter, r: Row)
    requires r.config.crontab.None?
    ensures Not(In(KeyOf(r.config.crontab), ExcludedCrontabs(s, f))) == T <==> ExcludedCrontabs(s, f) == {}
    ensures Not(CrontabExclusion(s, f, r)) == T
  {
  }

  /** Every crontab's zone has an offset, so the query's default branch is never taken. */
  lemma EveryZoneHasAnOffset(s: Schedules, offset: string -> int, c: nat)
    requires c in s.crontabs
    ensures s.crontabs[c].zone in Offsets(s, offset)
    ensures Offsets(s, offset)[s.crontabs[c].zone] == offset(s.crontabs[c].zone)
  {
  }

  /** The filter that the query computes from the clock, the server's zone and the zones of its own tables. */
  function QueryFilter(s: Schedules, q: Time, server: Zone, zone: string -> Zone): Filter {
    Filter(q + SYNC_MAX_INTERVAL, LocalHour(q, server.at(q)), Offsets(s, z => ZoneOffset(server, zone(z))))
  }

  /** The query at `q` selects an enabled clocked task exactly if its time comes within 300 seconds. */
  lemma QueryTakesComingClocks(db: Db, k: Pk, q: Time, server: Zone, zone: string -> Zone)
    requires Consistent(db.rows, db.schedules) && k in db.rows && db.rows[k].enabled
    requires db.rows[k].config.clocked.Some? && db.rows[k].config.crontab.None?
    ensures k in Selected(db, QueryFilter(db.schedules, q, server, zone)) <==>
            db.rows[k].config.clocked.value.content <= q + 300 * SECOND
  {
    hide Consistent, Where;
    QueryIsFilter(db, QueryFilter(db.schedules, q, server, zone));
  }

  /** For every crontab of the tables, the filter is the one that a refresh at `q` builds. */
  lemma QueryFilterIsBuilt(s: Schedules, q: Time, server: Zone, zone: string -> Zone, c: nat)
    requires c in s.crontabs
    ensures BuiltAt(QueryFilter(s, q, server, zone), q, server, s.crontabs[c].zone, zone(s.crontabs[c].zone))
  {
    EveryZoneHasAnOffset(s, z => ZoneOffset(server, zone(z)), c);
  }

  /** From the tables to the result: the query at `q` selects every enabled crontab task that comes up in reach
      of `q`. The zones in question are those of the query's own CASE, so its default branch plays no part. */
  lemma QueryKeepsDueCrontab(db: Db, k: Pk, q: Time, server: Zone, zone: string -> Zone, firing: Time)
    requires Consistent(db.rows, db.schedules) && k in db.rows && db.rows[k].enabled
    requires db.rows[k].config.crontab.Some? && db.rows[k].config.clocked.None?
    requires var c := db.rows[k].config.crontab.value.content;
             PlainHour(c.hour) ==>
               && LocalHour(firing, zone(c.zone).at(firing)) == HourValue(c.hour)
               && HourValue(c.hour) + ZoneOffset(server, zone(c.zone)) + 24 >= 0
               && InReach(firing - q, OffsetError(server, zone(c.zone), q, firing))
    ensures k in Selected(db, QueryFilter(db.schedules, q, server, zone))
  {
    hide Consistent, Where;
    var s, c, f := db.schedules, db.rows[k].config.crontab.value, QueryFilter(db.schedules, q, server, zone);
    ShownContent(db, k);
    QueryFilterIsBuilt(s, q, server, zone, c.key);
    FilterKeepsDueCrontab(db.rows[k], f, server, zone(c.content.zone), q, firing);
    QueryIsFilter(db, f);
  }
}
