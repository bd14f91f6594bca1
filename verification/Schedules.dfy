/** Exactly-once scheduling over every interleaving of ticks, toggles, upserts and missed periods. */
module Schedules {
  import opened Wrappers
  import opened Models
  import opened Queue
  import opened Scheduler
  import opened Worker
  import opened System
  import opened Lifecycle
  import opened Safety
  import opened Projection
  import opened Guarantees

  // ---- the invariant ------------------------------------------------------

  /** The firings of a schedule happen at or after their instants, each before the next instant,
      and all before the instant the row now waits for. */
  ghost predicate LogOk(cal: Calendar, sch: Schedule, log: seq<Firing>) {
    && Instant(cal, sch, sch.nextRunAt)
    && (forall i :: 0 <= i < |log| ==>
          log[i].due <= log[i].at < sch.nextRunAt && Instant(cal, sch, log[i].due))
    && (forall i, j :: 0 <= i < j < |log| ==> log[i].at < log[j].due)
  }

  /** A schedule's runs are the runs of its firings, each once. */
  ghost predicate RunsLogged(cells: map<RunId, Cell>, sid: ScheduleId, log: seq<Firing>) {
    && (forall i :: 0 <= i < |log| ==> log[i].run in cells && cells[log[i].run].row.scheduleId == Some(sid))
    && (forall i, j :: 0 <= i < j < |log| ==> log[i].run != log[j].run)
    && (forall id :: id in cells && cells[id].row.scheduleId == Some(sid) ==>
          exists i :: 0 <= i < |log| && log[i].run == id)
  }

  ghost predicate OneRowPerKey(v: Db) {
    forall a, b :: a in v.schedules && b in v.schedules && a != b ==>
      !Conflicts(v.schedules[b], v.schedules[a].agent, v.schedules[a].cronExpr)
  }

  ghost predicate SchedulesOk(env: Env, s: Sys) {
    && s.firings.Keys == s.db.schedules.Keys
    && (forall sid {:trigger LogOk(env.cal, s.db.schedules[sid], s.firings[sid])} ::
          sid in s.firings ==> LogOk(env.cal, s.db.schedules[sid], s.firings[sid]))
    && (forall sid {:trigger RunsLogged(s.db.cells, sid, s.firings[sid])} ::
          sid in s.firings ==> RunsLogged(s.db.cells, sid, s.firings[sid]))
    && (forall id :: id in s.db.cells && s.db.cells[id].row.scheduleId.Some? ==>
          s.db.cells[id].row.scheduleId.value in s.firings)
    && OneRowPerKey(s.db)
  }

  // ---- steps that fire nothing --------------------------------------------

  /** Same runs, as far as schedules are concerned, perhaps with new unscheduled ones. */
  ghost predicate SameScheduled(a: map<RunId, Cell>, b: map<RunId, Cell>) {
    && (forall id :: id in a ==> id in b && b[id].row.scheduleId == a[id].row.scheduleId)
    && (forall id :: id in b && id !in a ==> b[id].row.scheduleId.None?)
  }

  lemma QuietKeeps(env: Env, s: Sys, t: Sys)
    requires SchedulesOk(env, s) && SameScheduled(s.db.cells, t.db.cells)
    requires t.firings == s.firings && t.db.schedules == s.db.schedules
    ensures SchedulesOk(env, t)
  {
    forall sid | sid in t.firings
      ensures RunsLogged(t.db.cells, sid, t.firings[sid])
    {
      assert RunsLogged(s.db.cells, sid, s.firings[sid]);
    }
  }

  predicate FiresNothing(step: Step) {
    !step.Tick? && !step.Upsert? && !step.Sync? && !step.Toggle?
  }

  lemma SchedulesUntouched(env: Env, s: Sys, step: Step)
    requires FiresNothing(step)
    ensures Exec(env, s, step).firings == s.firings && Exec(env, s, step).db.schedules == s.db.schedules
  {
    if step.Work? {
      WorkLeavesSchedules(env, s, step.worker, step.input);
    }
  }

  lemma WorkLeavesSchedules(env: Env, s: Sys, worker: WorkerId, input: Input)
    ensures Exec(env, s, Work(worker, input)).db.schedules == s.db.schedules
  {
    match PcOf(s, worker) {
      case Idle =>
      case Claimed(_, _) =>
      case Parking(_, _) =>
      case Cleared(_) =>
      case Executing(_) =>
      case Tagging(_) =>
    }
  }

  lemma QuietStepKeeps(env: Env, s: Sys, step: Step)
    requires RunsOk(env, s) && SchedulesOk(env, s) && FiresNothing(step)
    ensures SchedulesOk(env, Exec(env, s, step))
  {
    var t := Exec(env, s, step);
    forall id | id in s.db.cells
      ensures id in t.db.cells && t.db.cells[id].row.scheduleId == s.db.cells[id].row.scheduleId
    {
      Projects(env, s, step, id);
      OpGrows(s.db.cells[id], OpOf(env, s, step, id), s.db.clock);
    }
    forall id | id in t.db.cells && id !in s.db.cells
      ensures t.db.cells[id].row.scheduleId.None?
    {
      RunsComeFrom(env, s, step, id);
    }
    SchedulesUntouched(env, s, step);
    QuietKeeps(env, s, t);
  }

  // ---- steps that edit rows -----------------------------------------------

  /** Enabling or disabling rows, and adding rows with an empty log, is harmless. */
  lemma EditKeeps(env: Env, s: Sys, t: Sys)
    requires SchedulesOk(env, s) && t.db.cells == s.db.cells && t.firings.Keys == t.db.schedules.Keys
    requires s.db.schedules.Keys <= t.db.schedules.Keys && OneRowPerKey(t.db)
    requires forall sid :: sid in s.firings ==>
               t.firings[sid] == s.firings[sid]
               && t.db.schedules[sid] == s.db.schedules[sid].(enabled := t.db.schedules[sid].enabled)
    requires forall sid :: sid in t.firings && sid !in s.firings ==>
               t.firings[sid] == [] && Instant(env.cal, t.db.schedules[sid], t.db.schedules[sid].nextRunAt)
    ensures SchedulesOk(env, t)
  {
    forall sid | sid in t.firings
      ensures LogOk(env.cal, t.db.schedules[sid], t.firings[sid])
    {
      if sid in s.firings {
        assert LogOk(env.cal, s.db.schedules[sid], s.firings[sid]);
        FlagKeepsLog(env.cal, s.db.schedules[sid], t.db.schedules[sid], s.firings[sid]);
      }
    }
    forall sid | sid in t.firings
      ensures RunsLogged(t.db.cells, sid, t.firings[sid])
    {
      if sid in s.firings {
        assert RunsLogged(s.db.cells, sid, s.firings[sid]);
      } else {
        NoRunsYet(env, s, sid);
      }
    }
  }

  lemma FlagKeepsLog(cal: Calendar, a: Schedule, b: Schedule, log: seq<Firing>)
    requires LogOk(cal, a, log) && b == a.(enabled := b.enabled)
    ensures LogOk(cal, b, log)
  {
  }

  /** A schedule that is not there has no runs. */
  lemma NoRunsYet(env: Env, s: Sys, sid: ScheduleId)
    requires SchedulesOk(env, s) && sid !in s.firings
    ensures RunsLogged(s.db.cells, sid, [])
  {
  }

  lemma NewScheduleWaits(cal: Calendar, agent: string, expr: string, tz: string, params: Json, at: Time)
    requires Regular(cal)
    ensures var sch := NewSchedule(cal, agent, expr, tz, params, at);
            Instant(cal, sch, sch.nextRunAt) && at < sch.nextRunAt
  {
    var sch := Schedule(agent, expr, tz, params, true, 0, None, None);
    NextIsInstant(cal, sch, at);
  }

  /** Rewriting the enabled flag of some rows. */
  lemma FlagsKeep(env: Env, s: Sys, t: Sys)
    requires SchedulesOk(env, s) && t.db.cells == s.db.cells && t.firings == s.firings
    requires t.db.schedules.Keys == s.db.schedules.Keys
    requires forall sid :: sid in s.db.schedules ==>
               t.db.schedules[sid] == s.db.schedules[sid].(enabled := t.db.schedules[sid].enabled)
    ensures SchedulesOk(env, t)
  {
    forall a, b | a in t.db.schedules && b in t.db.schedules && a != b
      ensures !Conflicts(t.db.schedules[b], t.db.schedules[a].agent, t.db.schedules[a].cronExpr)
    {
      assert !Conflicts(s.db.schedules[b], s.db.schedules[a].agent, s.db.schedules[a].cronExpr);
    }
    EditKeeps(env, s, t);
  }

  /** Adding a row for a key that no row has yet. */
  lemma NewRowKeeps(env: Env, s: Sys, t: Sys, sid: ScheduleId, agent: string, expr: string, tz: string, params: Json,
                    at: Time)
    requires SchedulesOk(env, s) && Regular(env.cal) && sid !in s.db.schedules && !Taken(s.db, agent, expr)
    requires t.db.cells == s.db.cells
    requires t.db.schedules == s.db.schedules[sid := NewSchedule(env.cal, agent, expr, tz, params, at)]
    requires t.firings == s.firings[sid := []]
    ensures SchedulesOk(env, t)
  {
    NewScheduleWaits(env.cal, agent, expr, tz, params, at);
    forall a, b | a in t.db.schedules && b in t.db.schedules && a != b
      ensures !Conflicts(t.db.schedules[b], t.db.schedules[a].agent, t.db.schedules[a].cronExpr)
    {
      if a in s.db.schedules && b in s.db.schedules {
        assert !Conflicts(s.db.schedules[b], s.db.schedules[a].agent, s.db.schedules[a].cronExpr);
      } else {
        assert !Conflicts(s.db.schedules[if a == sid then b else a], agent, expr);
      }
    }
    EditKeeps(env, s, t);
  }

  lemma AddLogsSame(s: Sys, v: Db)
    requires v.schedules.Keys == s.firings.Keys
    ensures AddLogs(s, v) == s.(db := v)
  {
    assert AddLogs(s, v).firings == s.firings;
  }

  lemma UpsertFlags(v: Db, w: Db, cal: Calendar, sid: ScheduleId, agent: string, expr: string, tz: string, params: Json,
                    at: Time)
    requires Taken(v, agent, expr) && w == UpsertRow(v, cal, sid, agent, expr, tz, params, at)
    ensures w.cells == v.cells && w.schedules.Keys == v.schedules.Keys
    ensures forall x :: x in v.schedules ==> w.schedules[x] == v.schedules[x].(enabled := w.schedules[x].enabled)
  {
  }

  lemma UpsertTaken(env: Env, s: Sys, t: Sys, w: Db, sid: ScheduleId, agent: string, expr: string, tz: string,
                    params: Json, at: Time)
    requires SchedulesOk(env, s) && Taken(s.db, agent, expr)
    requires w == UpsertRow(s.db, env.cal, sid, agent, expr, tz, params, at) && t == AddLogs(s, w)
    ensures SchedulesOk(env, t)
  {
    UpsertFlags(s.db, w, env.cal, sid, agent, expr, tz, params, at);
    AddLogsSame(s, w);
    FlagsKeep(env, s, t);
  }

  lemma UpsertNew(env: Env, s: Sys, t: Sys, sid: ScheduleId, agent: string, expr: string, tz: string, params: Json,
                  at: Time)
    requires SchedulesOk(env, s) && Regular(env.cal) && sid !in s.db.schedules && !Taken(s.db, agent, expr)
    requires var row := NewSchedule(env.cal, agent, expr, tz, params, at);
             t == AddLogs(s, s.db.(schedules := s.db.schedules[sid := row]))
    ensures SchedulesOk(env, t)
  {
    assert t.firings == s.firings[sid := []];
    NewRowKeeps(env, s, t, sid, agent, expr, tz, params, at);
  }

  lemma UpsertStep(env: Env, s: Sys, step: Step)
    requires SchedulesOk(env, s) && Regular(env.cal) && step.Upsert?
    ensures SchedulesOk(env, Exec(env, s, step))
  {
    var Upsert(sid, agent, expr, tz, params, at) := step;
    var t := Exec(env, s, step);
    if sid !in s.db.schedules && at >= s.db.clock {
      if Taken(s.db, agent, expr) {
        var w := UpsertRow(s.db, env.cal, sid, agent, expr, tz, params, at);
        UpsertTaken(env, s, t, w, sid, agent, expr, tz, params, at);
      } else {
        UpsertNew(env, s, t, sid, agent, expr, tz, params, at);
      }
    }
  }

  lemma SyncStep(env: Env, s: Sys, step: Step)
    requires SchedulesOk(env, s) && Regular(env.cal) && step.Sync?
    ensures SchedulesOk(env, Exec(env, s, step))
  {
    var Sync(sid, name, at) := step;
    var t := Exec(env, s, step);
    if sid !in s.db.schedules && at >= s.db.clock && name in env.registry {
      var agent := env.registry[name];
      if !HasDefault(agent) || Taken(s.db, name, agent.schedule.value) {
        AddLogsSame(s, s.db);
      } else {
        UpsertNew(env, s, t, sid, name, agent.schedule.value, "UTC", agent.params, at);
      }
    }
  }

  lemma ToggleStep(env: Env, s: Sys, step: Step)
    requires SchedulesOk(env, s) && step.Toggle?
    ensures SchedulesOk(env, Exec(env, s, step))
  {
    FlagsKeep(env, s, s.(db := ToggleRow(s.db, step.schedule)));
  }

  // ---- firing -------------------------------------------------------------

  lemma FiredLogOk(cal: Calendar, sch: Schedule, log: seq<Firing>, run: RunId, now: Time, at: Time)
    requires Regular(cal) && LogOk(cal, sch, log) && sch.nextRunAt <= now <= at
    ensures LogOk(cal, FiredSchedule(cal, sch, run, now, at), log + [Firing(now, sch.nextRunAt, run)])
  {
    NextIsInstant(cal, sch, at);
    var fired := FiredSchedule(cal, sch, run, now, at);
    forall t: Time
      ensures Instant(cal, fired, t) == Instant(cal, sch, t)
    {
    }
  }

  lemma FireKeepsSchedules(env: Env, s: Sys, f: Fire)
    requires SchedulesOk(env, s) && Regular(env.cal)
    requires f.schedule in s.db.schedules && f.run !in s.db.cells
    requires s.db.schedules[f.schedule].nextRunAt <= s.db.clock <= f.at
    ensures SchedulesOk(env, FireSys(env, s, f))
  {
    var t := FireSys(env, s, f);
    var sch := s.db.schedules[f.schedule];
    assert LogOk(env.cal, sch, s.firings[f.schedule]);
    FiredLogOk(env.cal, sch, s.firings[f.schedule], f.run, s.db.clock, f.at);
    forall sid | sid in t.firings && sid != f.schedule
      ensures LogOk(env.cal, t.db.schedules[sid], t.firings[sid])
    {
      assert LogOk(env.cal, s.db.schedules[sid], s.firings[sid]);
    }
    forall sid | sid in t.firings
      ensures RunsLogged(t.db.cells, sid, t.firings[sid])
    {
      LoggedAfterFire(s, t, env, f, sid);
    }
    forall a, b | a in t.db.schedules && b in t.db.schedules && a != b
      ensures !Conflicts(t.db.schedules[b], t.db.schedules[a].agent, t.db.schedules[a].cronExpr)
    {
      assert !Conflicts(s.db.schedules[b], s.db.schedules[a].agent, s.db.schedules[a].cronExpr);
    }
  }

  lemma LoggedAfterFire(s: Sys, t: Sys, env: Env, f: Fire, sid: ScheduleId)
    requires SchedulesOk(env, s) && f.schedule in s.db.schedules && f.run !in s.db.cells
    requires t == FireSys(env, s, f) && sid in s.firings
    ensures RunsLogged(t.db.cells, sid, t.firings[sid])
  {
    assert RunsLogged(s.db.cells, sid, s.firings[sid]);
    if sid == f.schedule {
      LogWithRun(s.db.cells, t.db.cells, sid, s.firings[sid], t.firings[sid][|s.firings[sid]|]);
    } else {
      LogWithout(s.db.cells, t.db.cells, sid, s.firings[sid], f.run);
    }
  }

  /** The schedule that fired: a new run, and its entry in the log. */
  lemma LogWithRun(a: map<RunId, Cell>, b: map<RunId, Cell>, sid: ScheduleId, log: seq<Firing>, entry: Firing)
    requires RunsLogged(a, sid, log) && entry.run !in a && entry.run in b && b == a[entry.run := b[entry.run]]
    requires b[entry.run].row.scheduleId == Some(sid)
    ensures RunsLogged(b, sid, log + [entry])
  {
    var after := log + [entry];
    forall id | id in b && b[id].row.scheduleId == Some(sid)
      ensures exists i :: 0 <= i < |after| && after[i].run == id
    {
      if id == entry.run {
        assert after[|log|].run == id;
      } else {
        var i :| 0 <= i < |log| && log[i].run == id;
        assert after[i].run == id;
      }
    }
  }

  /** Another schedule: the new run is not its own. */
  lemma LogWithout(a: map<RunId, Cell>, b: map<RunId, Cell>, sid: ScheduleId, log: seq<Firing>, run: RunId)
    requires RunsLogged(a, sid, log) && run !in a && run in b && b == a[run := b[run]]
    requires b[run].row.scheduleId != Some(sid)
    ensures RunsLogged(b, sid, log)
  {
  }

  /** A tick leaves the schedules it does not fire as they were. */
  lemma {:induction false} TickSkips(env: Env, s: Sys, fires: seq<Fire>, sid: ScheduleId)
    requires s.db.schedules.Keys <= s.firings.Keys && sid in s.db.schedules
    requires forall i :: 0 <= i < |fires| ==> fires[i].schedule in s.db.schedules && fires[i].schedule != sid
    ensures var t := TickSys(env, s, fires);
            t.db.schedules[sid] == s.db.schedules[sid] && t.firings[sid] == s.firings[sid]
  {
    if fires != [] {
      TickSkips(env, s, fires[..|fires| - 1], sid);
    }
  }

  lemma {:induction false} TickKeepsSchedules(env: Env, s: Sys, fires: seq<Fire>)
    requires SchedulesOk(env, s) && Regular(env.cal) && Fireable(s.db, fires)
    requires forall i :: 0 <= i < |fires| ==> s.db.schedules[fires[i].schedule].nextRunAt <= s.db.clock
    ensures SchedulesOk(env, TickSys(env, s, fires))
  {
    if fires != [] {
      var init, last := fires[..|fires| - 1], fires[|fires| - 1];
      FireableInit(s.db, fires);
      TickKeepsSchedules(env, s, init);
      TickAdds(env, s, init, last.run);
      TickSkips(env, s, init, last.schedule);
      FireKeepsSchedules(env, TickSys(env, s, init), last);
    }
  }

  lemma TickStepKeeps(env: Env, s: Sys, locked: set<ScheduleId>, fires: seq<Fire>)
    requires SchedulesOk(env, s) && Regular(env.cal)
    ensures SchedulesOk(env, Exec(env, s, Step.Tick(locked, fires)))
  {
    if CoversDue(s.db, locked, fires) {
      TickKeepsSchedules(env, s, fires);
    }
  }

  lemma SchedulesOkStep(env: Env, s: Sys, step: Step)
    requires RunsOk(env, s) && SchedulesOk(env, s) && Regular(env.cal)
    ensures SchedulesOk(env, Exec(env, s, step))
  {
    match step {
      case Tick(locked, fires) => TickStepKeeps(env, s, locked, fires);
      case Upsert(_, _, _, _, _, _) => UpsertStep(env, s, step);
      case Sync(_, _, _) => SyncStep(env, s, step);
      case Toggle(_) => ToggleStep(env, s, step);
      case _ => QuietStepKeeps(env, s, step);
    }
  }

  lemma {:induction false} SchedulesReachable(env: Env, now: Time, steps: seq<Step>)
    requires Regular(env.cal)
    ensures SchedulesOk(env, Run(env, Start(now), steps))
  {
    if steps != [] {
      SchedulesReachable(env, now, steps[..|steps| - 1]);
      Reachable(env, now, steps[..|steps| - 1]);
      SchedulesOkStep(env, Run(env, Start(now), steps[..|steps| - 1]), steps[|steps| - 1]);
    }
  }

  // ---- what it means ------------------------------------------------------

  ghost function RunsOf(v: Db, sid: ScheduleId): set<RunId> {
    set id | id in v.cells && v.cells[id].row.scheduleId == Some(sid)
  }

  lemma {:induction false} DistinctRuns(log: seq<Firing>, runs: set<RunId>)
    requires forall i, j :: 0 <= i < j < |log| ==> log[i].run != log[j].run
    requires forall id :: id in runs <==> exists i :: 0 <= i < |log| && log[i].run == id
    ensures |runs| == |log|
  {
    if log == [] {
      assert runs == {};
    } else {
      var last := log[|log| - 1];
      var rest := log[..|log| - 1];
      forall id
        ensures id in runs - {last.run} <==> exists i :: 0 <= i < |rest| && rest[i].run == id
      {
        if id in runs - {last.run} {
          var i :| 0 <= i < |log| && log[i].run == id;
          assert rest[i].run == id;
        }
        if i :| 0 <= i < |rest| && rest[i].run == id {
          assert log[i].run == id;
        }
      }
      DistinctRuns(rest, runs - {last.run});
      assert log[|log| - 1].run == last.run;
    }
  }

  /** Between two firings of a schedule lies an instant of its cron expression, after the first
      and not after the second; and the schedule has enqueued one run per firing. */
  lemma FiresOncePerInstant(env: Env, now: Time, steps: seq<Step>, sid: ScheduleId, i: nat, j: nat)
    requires Regular(env.cal) && sid in Run(env, Start(now), steps).db.schedules
    ensures var s := Run(env, Start(now), steps);
            && sid in s.firings
            && |RunsOf(s.db, sid)| == |s.firings[sid]|
            && (i < j < |s.firings[sid]| ==>
                  exists t: Time ::
                    Instant(env.cal, s.db.schedules[sid], t) && s.firings[sid][i].at < t <= s.firings[sid][j].at)
  {
    var s := Run(env, Start(now), steps);
    SchedulesReachable(env, now, steps);
    var log := s.firings[sid];
    assert LogOk(env.cal, s.db.schedules[sid], log) && RunsLogged(s.db.cells, sid, log);
    DistinctRuns(log, RunsOf(s.db, sid));
    if i < j < |log| {
      assert Instant(env.cal, s.db.schedules[sid], log[j].due);
    }
  }

  /** One firing of a due row, as tick leaves it: logged, and its columns written. */
  ghost predicate FiredBy(env: Env, s: Sys, t: Sys, f: Fire)
    requires f.schedule in s.db.schedules && f.schedule in s.firings && f.schedule in t.firings
  {
    && t.firings[f.schedule]
       == s.firings[f.schedule] + [Firing(s.db.clock, s.db.schedules[f.schedule].nextRunAt, f.run)]
    && f.run !in s.db.cells && f.at >= s.db.clock
    && FiredAs(s.db, t.db, env.cal, f)
  }

  lemma {:induction false} EachFired(env: Env, s: Sys, fires: seq<Fire>, k: nat)
    requires s.db.schedules.Keys <= s.firings.Keys && Fireable(s.db, fires) && k < |fires|
    ensures FiredBy(env, s, TickSys(env, s, fires), fires[k])
  {
    EachFiredAs(s.db, env.cal, fires, k);
    EachLogged(env, s, fires, k);
  }

  lemma {:induction false} EachLogged(env: Env, s: Sys, fires: seq<Fire>, k: nat)
    requires s.db.schedules.Keys <= s.firings.Keys && Fireable(s.db, fires) && k < |fires|
    ensures var f := fires[k];
            TickSys(env, s, fires).firings[f.schedule]
            == s.firings[f.schedule] + [Firing(s.db.clock, s.db.schedules[f.schedule].nextRunAt, f.run)]
  {
    var init, last := fires[..|fires| - 1], fires[|fires| - 1];
    FireableInit(s.db, fires);
    if k == |fires| - 1 {
      TickSkips(env, s, init, last.schedule);
    } else {
      assert init[k] == fires[k];
      EachLogged(env, s, init, k);
    }
  }

  /** A tick that skips nothing: every enabled schedule whose instant has come fires once, however often
      it has fired before, no other is touched, and an immediate second tick finds nothing to fire. */
  lemma TickFiresExactlyTheDue(env: Env, s: Sys, fires: seq<Fire>)
    requires s.db.schedules.Keys == s.firings.Keys && Regular(env.cal) && CoversDue(s.db, {}, fires)
    ensures var t := TickSys(env, s, fires);
            && t == Exec(env, s, Step.Tick({}, fires))
            && (forall sid :: sid in s.db.schedules ==>
                  if s.db.schedules[sid].enabled && s.db.schedules[sid].nextRunAt <= s.db.clock
                  then exists k :: 0 <= k < |fires| && fires[k].schedule == sid && FiredBy(env, s, t, fires[k])
                  else t.db.schedules[sid] == s.db.schedules[sid] && t.firings[sid] == s.firings[sid])
            && (forall sid :: sid in t.db.schedules && t.db.schedules[sid].enabled ==>
                  t.db.schedules[sid].nextRunAt > t.db.clock)
            && (forall again: seq<Fire> :: CoversDue(t.db, {}, again) ==> again == [])
  {
    var t := TickSys(env, s, fires);
    forall sid | sid in s.db.schedules
      ensures RowFires(env, s, t, fires, sid)
    {
      RowIsTicked(env, s, fires, sid);
    }
    forall sid | sid in t.db.schedules && t.db.schedules[sid].enabled
      ensures t.db.schedules[sid].nextRunAt > t.db.clock
    {
      assert RowFires(env, s, t, fires, sid);
    }
    forall again: seq<Fire> | CoversDue(t.db, {}, again)
      ensures again == []
    {
      NoneCovered(t.db, again);
    }
  }

  lemma NoneCovered(v: Db, fires: seq<Fire>)
    requires CoversDue(v, {}, fires)
    ensures fires != [] ==> exists sid :: sid in v.schedules && v.schedules[sid].enabled
                                          && v.schedules[sid].nextRunAt <= v.clock
  {
    if fires != [] {
      assert fires[0].schedule in Due(v, {});
    }
  }

  /** What a tick that skips nothing makes of one row. */
  ghost predicate RowFires(env: Env, s: Sys, t: Sys, fires: seq<Fire>, sid: ScheduleId)
    requires sid in s.db.schedules && sid in s.firings && t.firings.Keys == s.firings.Keys
    requires forall k :: 0 <= k < |fires| ==> fires[k].schedule in s.db.schedules && fires[k].schedule in s.firings
  {
    && sid in t.db.schedules
    && (t.db.schedules[sid].enabled ==> t.db.schedules[sid].nextRunAt > s.db.clock)
    && if s.db.schedules[sid].enabled && s.db.schedules[sid].nextRunAt <= s.db.clock
       then exists k :: 0 <= k < |fires| && fires[k].schedule == sid && FiredBy(env, s, t, fires[k])
       else t.db.schedules[sid] == s.db.schedules[sid] && t.firings[sid] == s.firings[sid]
  }

  lemma RowIsTicked(env: Env, s: Sys, fires: seq<Fire>, sid: ScheduleId)
    requires s.db.schedules.Keys == s.firings.Keys && Regular(env.cal) && CoversDue(s.db, {}, fires)
    requires sid in s.db.schedules
    ensures RowFires(env, s, TickSys(env, s, fires), fires, sid)
  {
    if sid in Due(s.db, {}) {
      var k :| 0 <= k < |fires| && fires[k].schedule == sid;
      EachFired(env, s, fires, k);
      NextIsInstant(env.cal, s.db.schedules[sid], fires[k].at);
    } else {
      TickSkips(env, s, fires, sid);
    }
  }

  // ---- a schedule goes on firing ----------------------------------------------

  /** There is always a way to fire what is due. */
  lemma SomeFires(v: Db, todo: set<ScheduleId>, free: RunId) returns (fires: seq<Fire>)
    requires todo <= Due(v, {}) && forall id :: id in v.cells ==> id < free
    ensures Fireable(v, fires)
    ensures forall i :: 0 <= i < |fires| ==> fires[i].schedule in todo && fires[i].run >= free
    ensures forall sid :: sid in todo ==> exists i :: 0 <= i < |fires| && fires[i].schedule == sid
    decreases todo
  {
    if todo == {} {
      return [];
    }
    var sid :| sid in todo;
    var rest := SomeFires(v, todo - {sid}, free + 1);
    fires := rest + [Fire(sid, free, v.clock)];
    forall x | x in todo
      ensures exists i :: 0 <= i < |fires| && fires[i].schedule == x
    {
      if x == sid {
        assert fires[|rest|].schedule == x;
      } else {
        assert x in todo - {sid};
        var i :| 0 <= i < |rest| && rest[i].schedule == x;
        assert fires[i].schedule == x;
      }
    }
  }

  lemma FreeRun(ids: set<RunId>) returns (free: RunId)
    ensures forall id <- ids :: id < free
  {
    if ids == {} {
      return 0;
    }
    var id :| id in ids;
    var rest := FreeRun(ids - {id});
    assert forall x <- ids :: x == id || x in ids - {id};
    free := if rest <= id then id + 1 else rest;
  }

  /** An enabled schedule that is left alone until its instant is fired by the next tick that skips
      nothing, from whatever reachable state, and whatever has happened before. */
  lemma LeftAloneItFires(env: Env, now: Time, past: seq<Step>, wait: seq<Step>, fires: seq<Fire>, sid: ScheduleId)
    requires Regular(env.cal)
    requires var s, t := Run(env, Start(now), past), Run(env, Start(now), past + wait);
             && sid in s.db.schedules && s.db.schedules[sid].enabled
             && sid in t.db.schedules && t.db.schedules[sid] == s.db.schedules[sid]
             && s.db.schedules[sid].nextRunAt <= t.db.clock
             && CoversDue(t.db, {}, fires)
    ensures var s, t := Run(env, Start(now), past), Run(env, Start(now), past + wait);
            var u := Exec(env, t, Step.Tick({}, fires));
            && sid in t.firings && sid in u.firings && sid in u.db.schedules && u.db.schedules[sid].enabled
            && |u.firings[sid]| == |t.firings[sid]| + 1 && |RunsOf(u.db, sid)| == |RunsOf(t.db, sid)| + 1
            && u.firings[sid][|t.firings[sid]|].due == s.db.schedules[sid].nextRunAt
            && u.firings[sid][|t.firings[sid]|].at == t.db.clock
  {
    var t := Run(env, Start(now), past + wait);
    SchedulesReachable(env, now, past + wait);
    TickIs(env, t, fires);
    DueRowFires(env, t, TickSys(env, t, fires), fires, sid);
    OneMore(env, now, past + wait, Step.Tick({}, fires), sid);
  }

  lemma DueRowFires(env: Env, t: Sys, u: Sys, fires: seq<Fire>, sid: ScheduleId)
    requires t.db.schedules.Keys == t.firings.Keys && Regular(env.cal) && CoversDue(t.db, {}, fires)
    requires u == TickSys(env, t, fires)
    requires sid in t.db.schedules && t.db.schedules[sid].enabled && t.db.schedules[sid].nextRunAt <= t.db.clock
    ensures sid in u.firings && sid in u.db.schedules && u.db.schedules[sid].enabled
    ensures |u.firings[sid]| == |t.firings[sid]| + 1
    ensures var last := u.firings[sid][|t.firings[sid]|];
            last.due == t.db.schedules[sid].nextRunAt && last.at == t.db.clock
  {
    RowIsTicked(env, t, fires, sid);
  }

  /** As many runs as firings, before and after a step. */
  lemma OneMore(env: Env, now: Time, steps: seq<Step>, step: Step, sid: ScheduleId)
    requires Regular(env.cal) && sid in Run(env, Start(now), steps).db.schedules
    requires sid in Exec(env, Run(env, Start(now), steps), step).db.schedules
    ensures var t := Run(env, Start(now), steps); var u := Exec(env, t, step);
            && sid in t.firings && sid in u.firings
            && |RunsOf(t.db, sid)| == |t.firings[sid]| && |RunsOf(u.db, sid)| == |u.firings[sid]|
  {
    var more := steps + [step];
    assert more[..|more| - 1] == steps;
    assert Run(env, Start(now), more) == Exec(env, Run(env, Start(now), steps), step);
    FiresOncePerInstant(env, now, steps, sid, 0, 0);
    FiresOncePerInstant(env, now, more, sid, 0, 0);
  }

  lemma SomeTick(v: Db) returns (fires: seq<Fire>)
    ensures CoversDue(v, {}, fires)
  {
    var free := FreeRun(v.cells.Keys);
    fires := SomeFires(v, Due(v, {}), free);
  }

  lemma TickIs(env: Env, t: Sys, fires: seq<Fire>)
    requires t.db.schedules.Keys == t.firings.Keys && CoversDue(t.db, {}, fires)
    ensures Exec(env, t, Step.Tick({}, fires)) == TickSys(env, t, fires)
  {
  }

  /** Wait for the instant, and tick. */
  lemma FiresOnceMore(env: Env, now: Time, past: seq<Step>, sid: ScheduleId) returns (wait: Step, tick: Step)
    requires Regular(env.cal)
    requires var s := Run(env, Start(now), past); sid in s.db.schedules && s.db.schedules[sid].enabled
    ensures wait.Elapse? && tick.Tick?
    ensures var s, u := Run(env, Start(now), past), Run(env, Start(now), past + [wait, tick]);
            && sid in s.firings && sid in u.firings && |u.firings[sid]| == |s.firings[sid]| + 1
            && sid in u.db.schedules && u.db.schedules[sid].enabled
  {
    var s := Run(env, Start(now), past);
    var due := s.db.schedules[sid].nextRunAt;
    wait := Elapse(if due <= s.db.clock then 0 else due - s.db.clock);
    var t := Exec(env, s, wait);
    var fires := SomeTick(t.db);
    tick := Step.Tick({}, fires);
    SchedulesReachable(env, now, past);
    TickIs(env, t, fires);
    DueRowFires(env, t, TickSys(env, t, fires), fires, sid);
    RunConcat(env, Start(now), past, [wait, tick]);
    RunTwo(env, s, wait, tick);
  }

  /** An enabled schedule can be made to fire any number of times more, by waiting and ticking. */
  lemma {:induction false} FiresAgainAndAgain(env: Env, now: Time, past: seq<Step>, sid: ScheduleId, n: nat)
    returns (steps: seq<Step>)
    requires Regular(env.cal)
    requires var s := Run(env, Start(now), past); sid in s.db.schedules && s.db.schedules[sid].enabled
    ensures forall step <- steps :: step.Elapse? || step.Tick?
    ensures var s, t := Run(env, Start(now), past), Run(env, Start(now), past + steps);
            && sid in s.firings && sid in t.firings && |t.firings[sid]| == |s.firings[sid]| + n
            && sid in t.db.schedules && t.db.schedules[sid].enabled
  {
    if n == 0 {
      SchedulesReachable(env, now, past);
      steps := [];
      assert past + steps == past;
    } else {
      var before := FiresAgainAndAgain(env, now, past, sid, n - 1);
      var wait, tick := FiresOnceMore(env, now, past + before, sid);
      steps := before + [wait, tick];
      assert past + steps == past + before + [wait, tick];
    }
  }
}
