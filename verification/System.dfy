/** N workers, the humans, the scheduler and the clock over one database. A run of the system is
    any sequence of labelled steps; a label that does not apply changes nothing. */
module System {
  import opened Wrappers
  import opened Models
  import opened Queue
  import opened Approvals
  import opened Scheduler
  import opened Worker

  /** What does not change: the loaded agents and the cron calendar. */
  datatype Env = Env(registry: Registry, cal: Calendar)

  /** One firing of a schedule: when, for which instant, and the run it enqueued. */
  datatype Firing = Firing(at: Time, due: Time, run: RunId)

  /** `invocations` counts executor calls per run and `firings` logs the scheduler; both are
      history the database does not hold. */
  datatype Sys = Sys(
    db: Db,
    workers: map<WorkerId, Pc>,
    invocations: multiset<RunId>,
    firings: map<ScheduleId, seq<Firing>>)

  datatype Step =
    | Enqueue(id: RunId, agent: string, trigger: Trigger, params: Json, maxAttempts: int, tags: Json)
    // `locked` are the rows that other transactions hold while this one selects
    | Claim(worker: WorkerId, lease: int, locked: set<RunId>, id: RunId)
    | Work(worker: WorkerId, input: Input)
    | Emit(worker: WorkerId, kind: string, payload: Json)
    | Heartbeat(worker: WorkerId, id: RunId, lease: int)
    | Crash(worker: WorkerId)
    | Decide(id: RunId, approved: bool, via: string, note: Option<string>)
    | Reap(locked: set<RunId>)
    | Tick(locked: set<ScheduleId>, fires: seq<Fire>)
    | Upsert(schedule: ScheduleId, agent: string, expr: string, tz: string, params: Json, at: Time)
    | Sync(schedule: ScheduleId, agent: string, at: Time)
    | Toggle(schedule: ScheduleId)
    | Elapse(seconds: nat)

  function At(workers: map<WorkerId, Pc>, worker: WorkerId): Pc {
    if worker in workers then workers[worker] else Idle
  }

  function PcOf(s: Sys, worker: WorkerId): Pc {
    At(s.workers, worker)
  }

  function FireSys(env: Env, s: Sys, f: Fire): Sys
    requires f.schedule in s.db.schedules && f.schedule in s.firings
  {
    var due := s.db.schedules[f.schedule].nextRunAt;
    s.(db := FireOne(s.db, env.cal, f.schedule, f.run, f.at),
       firings := s.firings[f.schedule := s.firings[f.schedule] + [Firing(s.db.clock, due, f.run)]])
  }

  function TickSys(env: Env, s: Sys, fires: seq<Fire>): (t: Sys)
    requires forall i :: 0 <= i < |fires| ==> fires[i].schedule in s.db.schedules && fires[i].schedule in s.firings
    ensures t.db.schedules.Keys == s.db.schedules.Keys && t.firings.Keys == s.firings.Keys
    ensures t.db == FireAll(s.db, env.cal, fires)
    ensures t.workers == s.workers && t.invocations == s.invocations
  {
    if fires == [] then s else FireSys(env, TickSys(env, s, fires[..|fires| - 1]), fires[|fires| - 1])
  }

  ghost function AddLogs(s: Sys, v: Db): Sys {
    s.(db := v, firings := map sid | sid in v.schedules :: if sid in s.firings then s.firings[sid] else [])
  }

  ghost function Exec(env: Env, s: Sys, step: Step): Sys {
    var v := s.db;
    match step
    case Enqueue(id, agent, trigger, params, maxAttempts, tags) =>
      if id in v.cells then s
      else
        var row := NewRow(agent, trigger, params, None, maxAttempts, tags, v.clock);
        s.(db := v.(cells := v.cells[id := NewCell(row)]))
    case Claim(worker, lease, locked, id) =>
      if !PcOf(s, worker).Idle? || !Oldest(v, locked, id) then s
      else
        var c := ClaimCell(v.cells[id], worker, lease, v.clock);
        s.(db := v.(cells := v.cells[id := c]), workers := s.workers[worker := Claimed(id, c.row)])
    case Work(worker, input) =>
      var pc := PcOf(s, worker);
      if pc.Idle? then s
      else
        var (w, next) := Advance(env.registry, v, pc, input);
        s.(db := w, workers := s.workers[worker := next],
           invocations := if pc.Cleared? then s.invocations + multiset{pc.id} else s.invocations)
    case Emit(worker, kind, payload) =>
      var pc := PcOf(s, worker);
      if !pc.Executing? || pc.id !in v.cells then s
      else
        var c := v.cells[pc.id];
        s.(db := v.(cells := v.cells[pc.id := c.(events := c.events + [Message(kind, payload)])]))
    case Heartbeat(worker, id, lease) =>
      if id !in v.cells then s
      else s.(db := v.(cells := v.cells[id := HeartbeatCell(v.cells[id], worker, lease, v.clock)]))
    case Crash(worker) => s.(workers := s.workers[worker := Idle])
    case Decide(id, approved, via, note) => s.(db := DecideIn(v, id, approved, via, note))
    case Reap(locked) => s.(db := Queue.Reap(v, locked))
    case Tick(locked, fires) =>
      if CoversDue(v, locked, fires) && v.schedules.Keys <= s.firings.Keys then TickSys(env, s, fires) else s
    case Upsert(sid, agent, expr, tz, params, at) =>
      if sid in v.schedules || at < v.clock then s
      else AddLogs(s, UpsertRow(v, env.cal, sid, agent, expr, tz, params, at))
    case Sync(sid, agent, at) =>
      if sid in v.schedules || at < v.clock || agent !in env.registry then s
      else AddLogs(s, SyncOne(v, env.cal, sid, agent, env.registry[agent], at))
    case Toggle(sid) => s.(db := ToggleRow(v, sid))
    case Elapse(seconds) => s.(db := v.(clock := v.clock + seconds))
  }

  ghost function Run(env: Env, s: Sys, steps: seq<Step>): Sys {
    if steps == [] then s else Exec(env, Run(env, s, steps[..|steps| - 1]), steps[|steps| - 1])
  }

  /** A migrated, empty database and no worker at work. */
  function Start(now: Time): Sys {
    Sys(Db(map[], map[], now), map[], multiset{}, map[])
  }

  /** The run that an enqueue adds, column by column; a key that is taken adds none. */
  lemma EnqueueColumns(env: Env, s: Sys, step: Step)
    requires step.Enqueue?
    ensures var t, now := Exec(env, s, step), s.db.clock;
            if step.id in s.db.cells then t == s
            else
              t == s.(db := s.db.(cells := s.db.cells[step.id := Cell(
                Row(agent := step.agent, status := Queued, trigger := step.trigger, params := step.params,
                    scheduleId := None, attempts := 0, maxAttempts := step.maxAttempts, availableAt := now,
                    createdAt := now, tags := step.tags, lockedBy := None, leaseExpiresAt := None,
                    sessionId := None, result := None, error := None, costUsd := None, startedAt := None,
                    finishedAt := None),
                [StatusChange(None, Queued, Enqueued(step.trigger))], [])]))
  {
  }

  lemma {:induction false} RunConcat(env: Env, s: Sys, a: seq<Step>, b: seq<Step>)
    ensures Run(env, s, a + b) == Run(env, Run(env, s, a), b)
  {
    if b == [] {
      assert a + b == a;
    } else {
      var n := |b| - 1;
      assert (a + b)[..|a + b| - 1] == a + b[..n];
      RunConcat(env, s, a, b[..n]);
    }
  }

  lemma RunTwo(env: Env, s: Sys, a: Step, b: Step)
    ensures Run(env, s, [a, b]) == Exec(env, Exec(env, s, a), b)
  {
    assert [a, b][..1] == [a] && [a][..0] == [];
    assert Run(env, s, [a]) == Exec(env, s, a);
  }

  lemma RunThree(env: Env, s: Sys, a: Step, b: Step, c: Step)
    ensures Run(env, s, [a, b, c]) == Exec(env, Exec(env, Exec(env, s, a), b), c)
  {
    assert [a, b, c][..2] == [a, b];
    RunTwo(env, s, a, b);
  }
}
