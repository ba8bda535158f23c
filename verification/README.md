# The database scheduler of django-celery-beat

`DatabaseScheduler` keeps periodic tasks in a database and runs them from memory. Between reloads its
`_schedule` is a write-back cache: dispatches change only the `PeriodicTask` instances in memory, `sync` writes
the run data back when it can, and a reload replaces every instance while carrying the unsaved run data over.
Meanwhile admin users and other processes change the rows and move one timestamp row to say so.

This project models that scheduler and proves what it promises over all interleavings with other writers, with
syncs and polls that fail anywhere, and with any number of reloads.

## How it is built

| file | what it holds |
|---|---|
| `Base.dfy` | optional values, results, time in microseconds |
| `Models.dfy` | task rows, schedule tables, `PeriodicTask.save` full and partial, `from_entry`, the admin's bulk actions |
| `Entries.dfy` | `ModelEntry`: loading, `is_due`, `__next__`, the start, expiry and one-off gates |
| `Candidates.dfy` | which rows a reload loads: the look-ahead for clocked tasks and the window for crontab hours |
| `CandidateQuery.dfy` | the same filter as the SQL query over the task and schedule tables, with nullable keys and three-valued logic |
| `Instants.dfy` | which instant a fallback `last_run_at` denotes, with `USE_TZ` on and off |
| `Beats.dfy` | the scheduler's state and operations as functions on values |
| `Machine.dfy` | beat, the database, other writers and Celery's tick as one state machine; runs |
| `Coherence.dfy` | cache coherence, bounded staleness, nothing due is hidden |
| `Conservation.dfy` | no run is lost or invented; reloads do not shift a task |
| `OneOff.dfy` | at most one dispatch of a one-off task per enabling |
| `Heaps.dfy` | only live entries are checked; no second dispatch within an interval |
| `Quiet.dfy` | beat does not trigger its own reloads |
| `Witnesses.dfy` | three concrete runs from the start that break a promise |
| `Schedulers.dfy` | the classes, with shared instances, loops and failures, proved against those functions |
| `Executions.dfy` | every run of the machine, carried out step by step on the objects |

`reserve` stores nothing in `_schedule`; it works because the heap's entry and the scheduled entry of a name share
one model. In `Schedulers.dfy` the sharing is real: `Valid` says that each heap entry has the very model of the
scheduled entry of its name. In the value model a heap item is a name with its own copies of the run data, and
`View` maps the objects to that. Every method is proved to do on objects what its function does on values, and
`Executions.Execution.RunAll` carries out any run of the machine on the objects and ends with objects that look like
its end. So the run theorems are theorems about the object graph.

A task row refers to its schedule by a foreign key, and the content of the schedule row stands in a table of its own.
In the model a task row shows both: `Ref` is a key and the content that was fetched with it, and `DbOk` says that the
rows show what the schedule tables hold. An instance in memory keeps the content it was loaded with. A save writes keys;
the content in the table stays what the schedule tables say (`Models.Written`).

In `Machine.dfy` an access to the `schedule` property is `Access` (the poll and the decision), any number of saves,
and `Refresh` (the reload); a save is `Fetch` (the read of the row) and `Store` (the write), or `Fetch` and `GiveUp`.
Steps of other writers may come between any two of these. `Machine.SyncIsARun` shows that a whole sync is such a run.
`Install` is the end of `update_from_dict`, which puts its entries into the schedule without asking the filter.

Hypotheses that the results rest on, all of them written in `Machine.Legal` or in the theorem that needs them:

- `update_from_dict` runs before the first heap is used, on rows that were neither renamed nor deleted and created
  again since the last reload. After it, coherence starts anew with the next reload.
- There is one clock that does not run backwards, and a bump by another writer is newer than the stored timestamp.
- Other writers leave the table well formed (`RowsOk`). They may write anything else, at any time.
- The row reads of a reload succeed, and a save inside `is_due` succeeds.
- A comparison of schedules fails, apart from the heap flag, for reasons of Celery's own (the parameter `same`).
- The first poll, with no known timestamp, never reports a change, so coherence starts once the timestamp was known
  at a reload (`synced`). Until then the forced reload after 300 seconds is what helps: `Coherence.BoundedStaleness`
  and `Coherence.ReReadWithoutBump` need no bump at all.

## Properties that do not hold as hoped

In each case the model keeps what the code does, a lemma gives the failing case, and another gives the exact
condition.

- The crontab window keeps a firing exactly while its distance from the reload, with the error of the integer zone
  offset added, is at most two hours, ahead or behind (`WindowIsSafe`, `WindowIsTight`, `KeptExactly`). The offset is
  taken at 2023-01-01. With `USE_TZ` on the server is on UTC, and then the error never hides a crontab that is at most
  a quarter of an hour overdue (`UtcServerIsSafe`). With `USE_TZ` off, between a southern server and a northern crontab
  it is two hours off in the northern summer, and a coming firing can be hidden (`TwoHourDriftHides`); between a northern server and a southern crontab one that was
  due a minute before the reload can be (`JustMissedIsHidden`). Whatever the zones, a crontab that is overdue by three
  hours to most of a day (the error included), after a long stop, say, stays hidden until the window comes round
  again, unless its hour is four on the server (`LongOverdueIsHidden`).
- SQL's `%` truncates. A crontab whose hour plus offset is below -24 is left out of every reload
  (`HiddenFromEveryReload`); with `USE_TZ` off the farthest zones reach an offset of -26 (`FarthestZonesHideMidnight`).
- If the schedule is reloaded after a comparison failed and before the heap is rebuilt, the flag stays up next to a
  full heap, and the following rebuild takes entries whose own `last_run_at` is behind their model. An interval task
  then runs twice within its period (`Heaps.DispatchedTwice`; `Witnesses.TwiceInASecond` is a run from the start).
  After a rebuild a task that may still run can be dispatched before its period is over if and only if the rebuild
  found its own entry behind the model with the period not over yet, and it has started and not expired by then
  (`EarlyDispatchExactly`). As long as each rebuild finds the task's own entry in time, whatever the entries of others
  are, the period is kept (`NeverTwiceWithinPeriod`); a caller that never reloads in between sees to that
  (`OrderlyIsTimely`, `OrderlyNeverTwice`).
- A dirty entry that a reload leaves out loses its unsaved run data. A one-off task can then run again
  (`OneOff.DroppedRunsTwice`; `Witnesses.RunsTwice` is a run from the start); exactly when, is said by
  `OneOff.ReloadKeepsSpentExactly`.
- If a later reload brings such a name back, its save moves the timestamp, and beat's next poll reports a change that
  nobody else made (`Quiet.DroppedMakesNoise`; `Witnesses.ReloadsItself` is a run from the start). A reload does this
  if and only if it keeps a row whose name is dirty and not in the schedule (`Quiet.ReloadIsQuietExactly`).
- `ModelEntry.save` reads a row and writes it whole. A change of the task's own columns in between is undone, and a row
  deleted in between is created again; a schedule row edited in place stays edited
  (`Models.SaveBetweenReadAndWrite`).
- The expiry branch writes the cached instance whole: it undoes a change of the task's own columns that beat has not
  read yet, and creates a deleted row again; of the schedule it writes the key alone (`Beats.ExpireExact`). The one-off
  branch writes its run columns only (`Beats.RetireExact`).
- An update from `beat_schedule` that disables a task leaves its last run in the row under those releases of Django that
  update only the columns given (`Models.FromEntryExact`).
- Toggling tasks in the admin leaves `last_run_at` on a disabled row (`Models.ToggleClears`).

## Model

| member | source | states |
|---|---|---|
| Models.SaveExact | django_celery_beat/models.py:617-663 | A full save succeeds if and only if exactly one schedule is set, clocked implies one-off, not both expiries are set, the headers are not empty, the name is free and the schedule row exists. The row then holds the instance column by column: the keys with the content of their tables, queue, exchange and routing key as they are or NULL where blank, no last run if disabled, and everything else as it is. The tables stay well formed, no other row is touched, and the timestamp moves unless `no_changes` |
| Models.SaveErrorsExactly | django_celery_beat/models.py:617-663 | Which complaint a refused save makes: both expiries, then the name, no schedule, several schedules, a recurring clocked task, empty headers, a missing schedule row, each under its exact condition |
| Models.PartialErrorsExactly | django_celery_beat/schedulers.py:167-169 | The partial save complains as the full one does, but of a missing row instead of headers or schedule rows |
| Models.JoinedColumns | django_celery_beat/models.py:467-490 | Against the same schedule tables, two configurations agree in full if and only if their own columns, keys included, agree |
| Models.PartialSaveExact | django_celery_beat/schedulers.py:160-169 | The one-off branch's partial save succeeds if and only if the stale instance validates and the row exists; it stores the instance's `enabled`, count, last run (none if disabled) and the time, changes no configuration column of any row, and bumps unless `no_changes` |
| Models.SaveBetweenReadAndWrite | django_celery_beat/schedulers.py:194-200 | Whatever was done to the tables between the read and the write of `ModelEntry.save`, the write goes through unless another row took the name or the schedule row is gone; it stores the columns that were read plus the run data, so a changed row survives if and only if neither its own columns nor `enabled` were changed, whatever happened to its schedule row, and a deleted row is created again |
| Models.FromEntryExact | django_celery_beat/schedulers.py:213-248 | Writing a `beat_schedule` entry over a row of any schedule type, or creating the row, succeeds if and only if the result is not a recurring clocked task and does not have both expiries. Column by column the row is then the item's, or what it was where the item says nothing, or for a new row the default; the one schedule column is that of the item's schedule, whose row is in its table. No other row of any table is touched and the timestamp moves. A disabled row is left without a last run unless only the item's columns are updated and it had one |
| Models.WithScheduleOk | django_celery_beat/schedulers.py:202-211 | Saving the schedule row of an entry adds that row or keeps it, touches no task row and no other schedule row, and bumps, also if the task row is then refused |
| Models.AdminActionsKeepRowsOk | django_celery_beat/admin.py:176-214 | The three bulk actions keep every row well formed and names unique although they bypass `save` |
| Models.AdminActionsExactly | django_celery_beat/admin.py:176-214 | Enabling, disabling and toggling change the flag of exactly the chosen rows, disabling also clears their last run, and nothing else changes |
| Models.ToggleClears | django_celery_beat/admin.py:203-214 | Toggling keeps "disabled rows have no last run" if and only if no chosen row is enabled and has run |
| Entries.LoadIgnoresTime | django_celery_beat/schedulers.py:97-124 | A saved row is loaded to the same entry at any time, and a row that never ran starts from its last edit |
| Entries.LoadExactly | django_celery_beat/schedulers.py:94-124 | The starting last run is the stored one, else the last edit or the present, 30 times 365 days back if there is a start time; nothing else of the row changes and the entry copies its model |
| Entries.AdvanceExactly | django_celery_beat/schedulers.py:188-192 | A dispatch sets the last run, adds one run, marks `no_changes`, and changes nothing else |
| Entries.VerdictExactly | django_celery_beat/schedulers.py:131-177 | Which branch `is_due` takes, by conditions on the model and the clock |
| Entries.FiresExactly | django_celery_beat/schedulers.py:131-177 | A task is dispatched if and only if it is enabled, started, not expired, not spent, has a last run, and its own schedule is due |
| Entries.ReplyExactly | django_celery_beat/schedulers.py:131-177 | What is returned: five seconds when disabled, the fewest whole seconds that reach the computed start (the crontab's own for a crontab), the never-check delay once it is over, and else the schedule's answer |
| Entries.IntervalExactly | django_celery_beat/schedulers.py:173-177 | An interval is due exactly a period after the last run and names the time of the next run |
| Entries.FiringGate | django_celery_beat/schedulers.py:131-177 | A due answer implies: enabled, not before `start_time`, before `expires`, a one-off task has no run yet, an interval has passed since the entry's last run, a clock time has come |
| Entries.StartDelay | django_celery_beat/schedulers.py:136-149 | The delay returned before the start wakes no earlier than the computed start and less than a second after it |
| Entries.FirstCheckAtStart | django_celery_beat/schedulers.py:116-124 | A never-run interval task of period up to 365*30 days is due at its first check from `start_time` on |
| Entries.ClockedExactly | django_celery_beat/clockedschedule.py:23-28 | A clocked schedule is due exactly from its time on, with the never-check delay; before, the delay ends at its time |
| Entries.ClockedFiresExactly | django_celery_beat/clockedschedule.py:23-28 | An enabled, started, unexpired, unspent clocked task with a last run fires exactly from its clock time on |
| Instants.FallbackKeepsInstant | django_celery_beat/schedulers.py:97-124 | For every zone-offset function and both values of `USE_TZ`, the instant read from a fallback `last_run_at` is that of `date_changed`, moved back thirty years if there is a start time, for unambiguous local times |
| Instants.FallbackExact | django_celery_beat/schedulers.py:107-115 | With `USE_TZ` off that instant is right if and only if `make_aware` picks the instant of the edit among those with the same reading |
| Instants.ConversionIsNeeded | django_celery_beat/schedulers.py:99-106 | The conversion can be left out for every interval and every check if and only if the zone's offset at the edit is zero |
| Candidates.HourFormatsExact | django_celery_beat/schedulers.py:383-390 | The 34 listed texts are exactly the one- or two-digit hours 0 to 23, padded or not |
| Candidates.TruncationExactly | django_celery_beat/schedulers.py:430-430 | The offset's fraction is cut off towards zero, on both sides of it |
| Candidates.TruncationSide | django_celery_beat/schedulers.py:426-432 | Without drift the error is between minus an hour and zero for a server ahead of the crontab's zone, between zero and an hour for one behind it, and zero exactly for zones whole hours apart |
| Candidates.HalfHourZone | django_celery_beat/schedulers.py:358-364 | A UTC server gets the offset -5 for a crontab at +5:30, and its hour 15 is hour 10 there |
| Candidates.DefaultHour | django_celery_beat/schedulers.py:366-367 | Without an offset the hour stands as it is |
| Candidates.ComputedHour | django_celery_beat/schedulers.py:352-369 | The annotated server hour, when not negative before `%`, is the server's hour at the refresh plus the hours between refresh and firing, with the offset's error added |
| Candidates.WindowIsSafe | django_celery_beat/schedulers.py:335-373 | A crontab that comes up at most two hours before or after a refresh, the offset's error included, is inside the window modulo 24 |
| Candidates.WindowIsTight | django_celery_beat/schedulers.py:335-373 | For every fixed pair of offsets and every distance (up to twenty hours, the error included), all refreshes keep the firing if and only if it is in that reach |
| Candidates.KeptExactly | django_celery_beat/schedulers.py:335-373 | Within the day around a refresh a crontab is kept if and only if its computed hour is at most two from the server's, or is four |
| Candidates.SafeExactly | django_celery_beat/schedulers.py:36-36 | The errors under which everything from a given time overdue to 300 seconds ahead is in reach are exactly -2h plus that time to 2h - 300s + 1us |
| Candidates.LongOverdueIsHidden | django_celery_beat/schedulers.py:335-340 | A crontab overdue by three hours to a day is hidden by every refresh, unless its computed hour is four |
| Candidates.QuarterHourZonesAreSafe | django_celery_beat/schedulers.py:398-432 | Zones on quarter hours, with the fixed date's difference wrong by at most an hour, satisfy the bound although `int` truncates, also for what is a quarter of an hour overdue |
| Candidates.WholeHourZonesAreSafe | django_celery_beat/schedulers.py:398-432 | For zones whole hours apart the error is the drift since the fixed date: an hour's drift leaves an hour of look-back, none leaves two |
| Candidates.UtcServerIsSafe | django_celery_beat/schedulers.py:398-432 | With the server on UTC, every zone on quarter hours within a day of UTC and an hour of its fixed offset is safe, also for what is a quarter of an hour overdue, and never meets the negative remainder |
| Candidates.NoDriftIsSafe | django_celery_beat/schedulers.py:419-432 | Any offsets at all satisfy the bound when the difference is that of the fixed date, also for what is an hour overdue |
| Candidates.TwoHourDriftHides | django_celery_beat/schedulers.py:419-432 | With `USE_TZ` off: zones at +11 and -5 in January, +10 and -4 later: some firing a minute after a refresh is hidden |
| Candidates.JustMissedIsHidden | django_celery_beat/schedulers.py:419-432 | With `USE_TZ` off: zones at -5 and +11 in January, -4 and +10 later: everything to come is in reach, but some firing a minute before a refresh is hidden |
| Candidates.HiddenFromEveryReload | django_celery_beat/schedulers.py:358-373 | A crontab is excluded whatever the server's hour if and only if its hour plus the offset plus 24 is negative |
| Candidates.FarthestZonesHideMidnight | django_celery_beat/schedulers.py:398-432 | With `USE_TZ` off: a server at -12 and a crontab at +14 give the offset -26, and the crontab at hour 0 is excluded by every filter |
| Candidates.FilterKeepsDueCrontab | django_celery_beat/schedulers.py:302-381 | The filter that a refresh builds keeps every enabled crontab row that comes up in reach of it, before or after |
| CandidateQuery.FutureClockedExact | django_celery_beat/schedulers.py:306-311 | The anti-join's subquery is non-empty if and only if the task is clocked beyond the cutoff |
| CandidateQuery.ExclusionExact | django_celery_beat/schedulers.py:371-379 | The nested exclude is true if and only if the task has a crontab with a plain hour outside the window, and is never NULL |
| CandidateQuery.QueryIsFilter | django_celery_beat/schedulers.py:302-381 | The query under three-valued logic returns exactly the enabled rows that the plain per-row filter keeps |
| CandidateQuery.ReloadIsTheQuery | django_celery_beat/schedulers.py:284-320 | The names that a reload brings into memory are exactly those of the rows that the query selects |
| CandidateQuery.OnlyPlainHoursAreExcluded | django_celery_beat/schedulers.py:341-379 | An enabled, not clocked task without a crontab or with any other hour expression is always selected |
| CandidateQuery.NullGuardIsNeeded | django_celery_beat/schedulers.py:375-379 | Without the null test a task without a crontab would be kept if and only if no crontab at all is excluded |
| CandidateQuery.QueryKeepsDueCrontab | django_celery_beat/schedulers.py:302-432 | The query over the tables at a given time, with the offsets of its own zones, selects every enabled crontab task that comes up in reach of that time |
| CandidateQuery.QueryTakesComingClocks | django_celery_beat/schedulers.py:302-320 | The query selects an enabled clocked task if and only if its time comes within 300 seconds |
| CandidateQuery.QueryFilterIsBuilt | django_celery_beat/schedulers.py:302-432 | For every crontab of the tables the query's filter has the cutoff, server hour and offset of a refresh at that time |
| Beats.FailedPollsLoseNothing | django_celery_beat/schedulers.py:434-463 | After any number of failing polls, the next good one reports a change if and only if the timestamp is newer than at the last good one |
| Beats.DecideExactly | django_celery_beat/schedulers.py:541-568 | An access reloads at the first read, on a newer timestamp than the last known one, or 300 seconds after the last reload, and else stays; what it remembers of the poll and of the time |
| Beats.SaveEntryExact | django_celery_beat/schedulers.py:194-200 | A dirty entry's save succeeds if and only if its row exists; it writes the run count and, on an enabled row, the last run, and changes no configuration, no `enabled` flag and no other row |
| Beats.SyncPartial | django_celery_beat/schedulers.py:472-492 | Wherever the loop stops, the rows that changed are exactly those of the saved models, changed only in their run data, and the timestamp stays if all of them have `no_changes` |
| Beats.SavedModelsAre | django_celery_beat/schedulers.py:478-483 | The saved models are exactly those of the names gone through that have an entry and a row |
| Beats.SyncSavedIs | django_celery_beat/schedulers.py:478-492 | The names that leave `_dirty` are exactly those; every other name stays dirty |
| Beats.SyncOutcome | django_celery_beat/schedulers.py:472-492 | After the names gone through, exactly those with an entry and a row are no longer dirty, and their rows hold the models' run data |
| Beats.MergedFrom | django_celery_beat/schedulers.py:526-539 | Every reloaded entry comes from a kept row of its name, with the cached run data if it was dirty and cached, and with the row's otherwise |
| Beats.MergeOk | django_celery_beat/schedulers.py:526-576 | A reload keeps names and keys unique and every instance valid, and leaves no heap item without an entry |
| Beats.CarryExactly | django_celery_beat/schedulers.py:535-538 | What the loaded entry takes from the cached one, in the entry and in the model, and what it keeps |
| Beats.RefreshExactly | django_celery_beat/schedulers.py:570-576 | Besides the schedule a reload changes the heap and its flag only, and at the first read not even these |
| Beats.ExpireExact | django_celery_beat/schedulers.py:126-129 | The expiry branch goes through unless the cached name is taken or the schedule row is gone; it does not bump, leaves the instance disabled, without last run and quiet, keeps the row's configuration if and only if the cached columns, keys included, are current, and creates a deleted row again |
| Beats.RetireExact | django_celery_beat/schedulers.py:160-169 | The one-off branch goes through if and only if the row is there and the cached name is free; it bumps, keeps the row's configuration whatever the cache holds, and leaves row and instance disabled, with no run counted |
| Beats.NoOtherEffect | django_celery_beat/schedulers.py:131-177 | No other branch of `is_due` touches the database or the instance |
| Entries.DisablingExactly | django_celery_beat/schedulers.py:126-129 | The instance after either branch: cleaned as by a save, disabled, quiet after expiry and not after the one run |
| Machine.RunKeepsInv | django_celery_beat/schedulers.py:257-581 | The base invariant holds after every run of beat, other writers and the tick |
| Machine.SyncIsARun | django_celery_beat/schedulers.py:472-492 | A whole sync over any names, in any order, is a run of reads and writes of single rows with the same result |
| Machine.CompleteSyncSaves | django_celery_beat/schedulers.py:472-492 | A sync that nothing stops is a run after which only names without an entry or a row are dirty and every other dirty name's row holds its run data |
| Machine.StoreExact | django_celery_beat/schedulers.py:194-200 | The write of a save stores the columns that were read, with the schedule content of the moment, and the model's run data, and touches no other row |
| Machine.FromEntryIsNew | django_celery_beat/schedulers.py:494-506 | What `from_entry` returns for an enabled task is loaded from the row as saved, and is an entry that `update_from_dict` can install, then or later |
| Machine.RefreshedFrom | django_celery_beat/schedulers.py:526-539 | The same as `MergedFrom` for the reload step of the machine |
| Machine.AskDispatches | django_celery_beat/schedulers.py:465-470 | A dispatch changes one model, the dirty set and one heap item; nothing is written to the database |
| Coherence.CacheCoherence | django_celery_beat/schedulers.py:541-581 | Over every run from the start: once the timestamp was known at a reload since setup, outside an update, with no writer owing a bump and no newer timestamp stored, the cache holds exactly the kept rows with their current configuration, also when a save writes back a row that was changed after its read |
| Coherence.BumpIsPickedUp | django_celery_beat/schedulers.py:434-463 | A bump leads, by the next poll and reload, to a schedule built from the rows of that moment |
| Coherence.BumpBeforeWriteIsNotEnough | django_celery_beat/signals.py:12-17 | From any synced state, a writer that bumps only before its write can leave the cache without its row and with no newer timestamp; so the bump after the write is needed |
| Coherence.BoundedStaleness | django_celery_beat/schedulers.py:541-572 | After every completed access the last reload is less than 300 seconds older than the access, and the schedule is exactly what that reload kept, plus what `update_from_dict` has put there since |
| Coherence.ReReadWithoutBump | django_celery_beat/schedulers.py:556-572 | A row that stays as it is is read by the first access completed 300 seconds later, bump or no bump, and is scheduled if the filter keeps it, and only then if nothing was installed since |
| Coherence.ClockedNeverHidden | django_celery_beat/schedulers.py:302-320 | At every completed access each enabled clocked task whose time has come, configured as the last reload saw it, is scheduled |
| Coherence.CrontabNeverHidden | django_celery_beat/schedulers.py:322-381 | The same for a crontab that came up before the last reload, by at most a given time, or since, under the bound on the offset's error for that time |
| Coherence.CrontabNeverHiddenOnUtc | django_celery_beat/schedulers.py:322-432 | With the server on UTC the same holds without any condition on the error, for what came up a quarter of an hour before the last reload or since |
| Conservation.RunDataConserved | django_celery_beat/schedulers.py:188-200 | Over every run in which the task stays scheduled and nobody else touches its run data, though its configuration and its schedule row may be edited, the run count grows by exactly the number of dispatches and the last run is the last dispatch |
| Conservation.CleanMeansSaved | django_celery_beat/schedulers.py:472-492 | At the end of such a run, the enabled row of a name that is not dirty holds that count and that last run |
| Conservation.ReloadsDoNotShift | django_celery_beat/schedulers.py:526-539 | Without a dispatch the starting last run is the same after any number of reloads |
| Conservation.ReloadBacks | django_celery_beat/schedulers.py:284-292 | Right after a reload every clean entry would be loaded to the same run data again, so the results above apply from there |
| OneOff.AtMostOnce | django_celery_beat/schedulers.py:159-171 | A one-off task that nobody else enables again, renames, makes recurring, deletes or resets is dispatched at most once over every run, whatever is reloaded, whichever syncs fail and whatever else is edited, if no reload drops its unsaved entry |
| OneOff.SpentStaysSpent | django_celery_beat/schedulers.py:188-192 | Once it has run it is never dispatched again in such a run |
| OneOff.ReloadKeepsSpentExactly | django_celery_beat/schedulers.py:532-538 | A reload keeps a task spent if and only if it does not drop the only record of its run |
| OneOff.DroppedRunsTwice | django_celery_beat/schedulers.py:532-534 | If a reload drops that record and a later one brings a crontab row back, a run of beat's own steps contains another dispatch |
| Heaps.HeapIsLive | django_celery_beat/schedulers.py:520-524 | In every reachable state each heap item names a scheduled entry, one item per name, and every scheduled name has an item unless a rebuild is due |
| Heaps.HeapIsLiveFromStart | django_celery_beat/schedulers.py:264-272 | So it is in every state that beat can reach from its start |
| Heaps.NeverTwiceWithinPeriod | django_celery_beat/schedulers.py:465-470 | After any run in which each rebuild finds the task's own entry in time, an interval task is dispatched no earlier than a period after its last dispatch, whatever the entries of other tasks are |
| Heaps.EarlyDispatchExactly | django_celery_beat/schedulers.py:465-470 | After a rebuild a dispatch before the period is over is possible if and only if the rebuild found the entry behind its model with the period not over, and the task has started and not expired by then |
| Heaps.RebuildIsCurrentExactly | django_celery_beat/schedulers.py:188-192 | A rebuild gives a heap in step with the models if and only if every scheduled entry is in step |
| Heaps.OrderlyIsTimely | django_celery_beat/schedulers.py:570-576 | A caller that never reloads between a failed comparison and the rebuild always rebuilds from entries in time, for every task |
| Heaps.OrderlyNeverTwice | django_celery_beat/schedulers.py:570-576 | From the start, with such a caller, no interval task is dispatched twice within its period |
| Heaps.DispatchLeavesSlotBehind | django_celery_beat/schedulers.py:465-470 | A dispatch leaves the scheduled entry's own copies behind its model |
| Heaps.DispatchedTwice | django_celery_beat/schedulers.py:520-524 | From such a state an interval task is dispatched twice, at any two times however close |
| Witnesses.RunsTwice | django_celery_beat/schedulers.py:532-534 | From the first read of a table with one nightly one-off task, beat alone, with its syncs failing, dispatches it twice |
| Witnesses.TwiceInASecond | django_celery_beat/schedulers.py:520-524 | From the first read of a table with one task for every minute, beat alone dispatches it twice within a second |
| Witnesses.ReloadsItself | django_celery_beat/schedulers.py:532-538 | From the first read of the same table as in `RunsTwice`, beat alone comes to a poll that reports a change |
| Quiet.NoSelfTriggeredReload | django_celery_beat/schedulers.py:188-200 | Over every run of beat's own steps in which no one-off task completes and no dropped dirty name comes back, the timestamp does not move and no poll reports a change |
| Quiet.ReloadIsQuietExactly | django_celery_beat/schedulers.py:538-538 | A reload keeps every dirty entry marked `no_changes` if and only if every row that it keeps under a dirty name is in the schedule already |
| Quiet.DroppedMakesNoise | django_celery_beat/schedulers.py:532-538 | A dirty name that one reload drops and a later one brings back is saved with a bump, and beat's next poll decides to reload, with nobody else writing |
| Schedulers.PeriodicTask.constructor | django_celery_beat/models.py:602-603 | An instance read from a row has that row's fields and `no_changes` off |
| Schedulers.PeriodicTask.Prepare | django_celery_beat/models.py:643-651 | Makes blank texts NULL in four columns, clears the last run of a disabled task, changes nothing else, and returns the first complaint |
| Schedulers.PeriodicTask.ValidateUnique | django_celery_beat/models.py:617-641 | Returns the complaint about the name, the number of schedules, or a recurring clocked task, whatever the expiries are |
| Schedulers.PeriodicTask.Notify | django_celery_beat/models.py:433-440 | Overwrites the timestamp unless the instance says `no_changes`, and nothing else |
| Schedulers.PeriodicTask.Save | django_celery_beat/models.py:643-653 | Does to the database and the instance what `FullSave` says, with the errors that leave the database alone |
| Schedulers.PeriodicTask.SaveRunFields | django_celery_beat/schedulers.py:167-169 | Does to the database and the instance what `PartialSave` says |
| Schedulers.ModelEntry.constructor | django_celery_beat/schedulers.py:94-124 | Gives the model its starting last run and copies its run data |
| Schedulers.ModelEntry.Disable | django_celery_beat/schedulers.py:126-129 | A full save of the disabled, quiet instance |
| Schedulers.ModelEntry.RetireOneOff | django_celery_beat/schedulers.py:160-169 | A partial save of the disabled instance with its count reset, not quiet |
| Schedulers.ModelEntry.IsDue | django_celery_beat/schedulers.py:131-177 | Returns the reply of the verdict and has exactly the verdict's effect on the database and the model; if a save is refused, the model is disabled all the same |
| Schedulers.ModelEntry.Next | django_celery_beat/schedulers.py:188-192 | Advances the shared model and returns a new entry over the same model, in step with it |
| Schedulers.ModelEntry.Fetch | django_celery_beat/schedulers.py:197-197 | Reads the row into a new instance, or finds none |
| Schedulers.ModelEntry.Store | django_celery_beat/schedulers.py:198-200 | Whatever the database holds by now, saves the instance that was read, with the model's run data |
| Schedulers.ModelEntry.FromEntry | django_celery_beat/schedulers.py:213-218 | Saves the schedule row, updates the task row of the name or creates one, as `FromEntry` says, and returns a new entry over the saved instance; if the task row is refused, the schedule row stays saved and the timestamp moved |
| Schedulers.ModelEntry.UpdateOrCreate | django_celery_beat/schedulers.py:215-217 | A full save of the given row; where only the item's columns are updated, the last run in the table stays |
| Schedulers.DatabaseScheduler.constructor | django_celery_beat/schedulers.py:264-272 | The state before the first read |
| Schedulers.DatabaseScheduler.ScheduleChanged | django_celery_beat/schedulers.py:434-463 | Answers and remembers as the poll's function says; a failed poll changes nothing |
| Schedulers.DatabaseScheduler.Reserve | django_celery_beat/schedulers.py:465-470 | Assigns nothing in the schedule, and yet the scheduled slot's model has advanced and the name is dirty |
| Schedulers.DatabaseScheduler.SaveName | django_celery_beat/schedulers.py:479-483 | Saves one name; a missing entry or row is skipped, other errors escape |
| Schedulers.DatabaseScheduler.SaveDirty | django_celery_beat/schedulers.py:473-490 | The loop, in any order, ends with the dirty set, at a database error or at what it raises, and until then has saved a sequence of distinct dirty names |
| Schedulers.DatabaseScheduler.Sync | django_celery_beat/schedulers.py:472-492 | However the loop ends, the dirty set loses exactly the saved names; it gets through all names unless a database error stops it, and from well-formed tables it raises nothing |
| Schedulers.DatabaseScheduler.EntryOf | django_celery_beat/schedulers.py:287-289 | A new entry over a new instance, equal to the loaded row |
| Schedulers.DatabaseScheduler.AllAsSchedule | django_celery_beat/schedulers.py:284-292 | New entries for exactly the kept rows, filed under their names |
| Schedulers.DatabaseScheduler.CarryOver | django_celery_beat/schedulers.py:535-538 | Copies run data and `no_changes` into the loaded entry and its model |
| Schedulers.DatabaseScheduler.MergeName | django_celery_beat/schedulers.py:532-538 | One turn of the merging loop changes one loaded entry and no cached one |
| Schedulers.DatabaseScheduler.MergeDirty | django_celery_beat/schedulers.py:532-539 | The loop, in any order, merges every dirty name that is both cached and loaded |
| Schedulers.DatabaseScheduler.RefreshSchedule | django_celery_beat/schedulers.py:526-539 | Returns new entries that show the merged schedule |
| Schedulers.DatabaseScheduler.Decide | django_celery_beat/schedulers.py:543-568 | Decides as its function says among first read, change, forced reload and nothing |
| Schedulers.DatabaseScheduler.LoadAgain | django_celery_beat/schedulers.py:572-576 | Installs the merged schedule and, unless it is the first, empties and flags the heap |
| Schedulers.DatabaseScheduler.Update | django_celery_beat/schedulers.py:570-576 | The sync, in front of any tables that other processes left, then the reload of whatever they make of the result: saved names are clean and their rows hold their run data when the reload comes |
| Schedulers.DatabaseScheduler.Schedule | django_celery_beat/schedulers.py:541-581 | The whole property: it stays, or syncs and then reloads; where no database error is in the way, every name that was dirty with an entry and a row is saved and clean, and every other one is still dirty |
| Schedulers.DatabaseScheduler.Install | django_celery_beat/schedulers.py:506-506 | The new entries join the schedule, and heap and schedule still share models |
| Schedulers.DatabaseScheduler.SchedulesEqual | django_celery_beat/schedulers.py:520-524 | Takes the flag down, and answers false if it was up |
| Schedulers.DatabaseScheduler.Examine | django_celery_beat/schedulers.py:131-177 | `is_due` on a live entry changes one slot of the view, as its verdict says |
| Schedulers.DatabaseScheduler.CheckItem | django_celery_beat/schedulers.py:465-470 | A check of a heap item, and its dispatch when it is due, keeps heap and schedule sharing models |
| Schedulers.DatabaseScheduler.DispatchItem | django_celery_beat/schedulers.py:465-470 | Replaces the heap item by the reserved entry, without assigning the schedule |
| Executions.Execution.Perform | django_celery_beat/schedulers.py:257-581 | Each legal step of the machine, carried out with the methods of the classes, leaves the objects looking as the machine says |
| Executions.Execution.RunAll | django_celery_beat/schedulers.py:257-581 | So does every run, with other writers between any two steps |

## Left out

- Celery's own code: the tick is an environment that compares schedules, rebuilds the heap and checks items. The
  order of the heap is any order, and crontab and solar `is_due` and `remaining_delta` are parameters.
- The loop of `update_from_dict`, its handling of exceptions, and the default entry of `install_default_entries`: what
  `from_entry` does to a row and what `update` does to the schedule are modelled, and the machine takes them in any order. An item
  that sets `last_run_at` or `total_run_count` itself is not. `from_schedule` is the choice of a key (`Models.KeyFits`).
- `ModelEntry.__init__` on a missing schedule or on malformed JSON, the options and `expires` handed to Celery.
- The bump before the write inside `save` (the `pre_save` signal) when the write itself then fails: failed saves
  leave the model's database alone. Where the write succeeds it adds nothing to the bump after it.
- Models.SaveExact: uniqueness and the schedule rules are the validation; field lengths and validators are not modelled.
- Schedulers.DatabaseScheduler.Update: other processes act before the sync and before the reload, as inputs; that they may
  act between any two reads and writes of the sync as well is the business of `Executions.Execution.Perform`. The same
  goes for Sync and SaveName.
- Names leave the dirty set one by one in the machine, at the end of the loop in `Sync`; nothing reads the set between.
- Exceptions that escape `is_due` or a reload are reported by the methods but end the runs of the machine.
- The ORM, connections, isolation levels, the `Finalize` hook and logging: row reads and writes are atomic, and a
  poll or a sync can fail at any point.
- `PeriodicTask.delete` and deleting a schedule row are other writers' steps: a write and a bump.
- `DJANGO_CELERY_BEAT_TZ_AWARE` switched off, and floating-point rounding of delays.
- `_schedule` being `None` before the first read is the empty map; the code treats the two alike.
- Validators, `human_readable`, solar schedules, `from_schedule`, admin forms and `run_tasks`: display or plumbing.
