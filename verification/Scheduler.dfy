/** The database-driven cron scheduler, and the API calls that edit schedules. */
module Scheduler {
  import opened Wrappers
  import opened Models
  import opened Store
  import opened Queue

  // ---- cron ---------------------------------------------------------------

  /** `next(expression, timezone, now)` stands for croniter's get_next. */
  datatype Calendar = Calendar(next: (string, string, Time) -> Time)

  /** The next instant is the least one strictly after `now`: nothing changes until it comes. */
  ghost predicate Regular(cal: Calendar) {
    forall expr, tz, now: Time {:trigger cal.next(expr, tz, now)} ::
      && now < cal.next(expr, tz, now)
      && forall later: Time {:trigger cal.next(expr, tz, later)} ::
           now <= later < cal.next(expr, tz, now) ==> cal.next(expr, tz, later) == cal.next(expr, tz, now)
  }

  /** `t` is an instant at which the expression fires. */
  ghost predicate Instant(cal: Calendar, s: Schedule, t: Time) {
    cal.next(s.cronExpr, s.timezone, t - 1) == t
  }

  function ComputeNext(cal: Calendar, s: Schedule, now: Time): Time {
    cal.next(s.cronExpr, s.timezone, now)
  }

  lemma NextIsInstant(cal: Calendar, s: Schedule, now: Time)
    requires Regular(cal)
    ensures now < ComputeNext(cal, s, now) && Instant(cal, s, ComputeNext(cal, s, now))
  {
    var n := ComputeNext(cal, s, now);
    assert cal.next(s.cronExpr, s.timezone, n - 1) == n;
  }

  // ---- tick ---------------------------------------------------------------

  predicate IsDue(s: Schedule, now: Time) {
    s.enabled && s.nextRunAt <= now
  }

  ghost function Due(v: Db, locked: set<ScheduleId>): set<ScheduleId> {
    set sid | sid in v.schedules && sid !in locked && IsDue(v.schedules[sid], v.clock)
  }

  function ScheduledRow(s: Schedule, sid: ScheduleId, now: Time): Row {
    NewRow(s.agent, Scheduled, s.params, Some(sid), 1, "{}", now)
  }

  function FiredSchedule(cal: Calendar, s: Schedule, run: RunId, now: Time, at: Time): Schedule {
    s.(nextRunAt := ComputeNext(cal, s, at), lastRunAt := Some(now), lastRunId := Some(run))
  }

  /** One turn of the loop in tick. `at` is the application's clock when it computes the next
      instant, not before the `now()` of the transaction. */
  function FireOne(v: Db, cal: Calendar, sid: ScheduleId, run: RunId, at: Time): Db
    requires sid in v.schedules
  {
    var s := v.schedules[sid];
    v.(cells := v.cells[run := NewCell(ScheduledRow(s, sid, v.clock))],
       schedules := v.schedules[sid := FiredSchedule(cal, s, run, v.clock, at)])
  }

  /** The rows fetched, the keys generated for their runs and the clock readings, in fetch order. */
  datatype Fire = Fire(schedule: ScheduleId, run: RunId, at: Time)

  ghost predicate Fireable(v: Db, fires: seq<Fire>) {
    && (forall i :: 0 <= i < |fires| ==>
          fires[i].schedule in v.schedules && fires[i].run !in v.cells && fires[i].at >= v.clock)
    && (forall i, j :: 0 <= i < j < |fires| ==>
          fires[i].schedule != fires[j].schedule && fires[i].run != fires[j].run)
  }

  function FireAll(v: Db, cal: Calendar, fires: seq<Fire>): (w: Db)
    requires forall i :: 0 <= i < |fires| ==> fires[i].schedule in v.schedules
    ensures w.schedules.Keys == v.schedules.Keys && w.clock == v.clock
  {
    if fires == [] then v
    else
      var f := fires[|fires| - 1];
      FireOne(FireAll(v, cal, fires[..|fires| - 1]), cal, f.schedule, f.run, f.at)
  }

  /** `fires` covers exactly the due, enabled, unlocked schedules. */
  ghost predicate CoversDue(v: Db, locked: set<ScheduleId>, fires: seq<Fire>) {
    && Fireable(v, fires)
    && (forall i :: 0 <= i < |fires| ==> fires[i].schedule in Due(v, locked))
    && (forall sid :: sid in Due(v, locked) ==> exists i :: 0 <= i < |fires| && fires[i].schedule == sid)
  }

  method FireRow(db: Database, cal: Calendar, f: Fire)
    requires db.Valid() && f.schedule in db.schedules && f.run !in db.runs
    modifies db
    ensures db.Valid()
    ensures db.View() == FireOne(old(db.View()), cal, f.schedule, f.run, f.at)
    ensures db.runs.Keys == old(db.runs).Keys + {f.run} && db.schedules.Keys == old(db.schedules).Keys
    ensures db.clock == old(db.clock)
  {
    var s := db.schedules[f.schedule];
    InsertRun(db, f.run, ScheduledRow(s, f.schedule, db.clock));
    ghost var cells := db.View().cells;
    db.schedules := db.schedules[f.schedule := FiredSchedule(cal, s, f.run, db.clock, f.at)];
    assert db.View().cells == cells;
  }

  /** Fetches the due rows in some order, each row once. */
  method FetchDue(db: Database, locked: set<ScheduleId>) returns (order: seq<ScheduleId>)
    requires db.Valid()
    ensures forall i :: 0 <= i < |order| ==> order[i] in Due(db.View(), locked)
    ensures forall sid :: sid in Due(db.View(), locked) ==> sid in order
    ensures forall i, j :: 0 <= i < j < |order| ==> order[i] != order[j]
    ensures |order| == |Due(db.View(), locked)|
  {
    var todo := set sid | sid in db.schedules && sid !in locked && IsDue(db.schedules[sid], db.clock);
    ghost var due := todo;
    assert due == Due(db.View(), locked);
    order := [];
    while todo != {}
      invariant todo <= due && |order| + |todo| == |due|
      invariant forall i :: 0 <= i < |order| ==> order[i] in due - todo
      invariant forall sid :: sid in due - todo ==> sid in order
      invariant forall i, j :: 0 <= i < j < |order| ==> order[i] != order[j]
      decreases todo
    {
      var sid :| sid in todo;
      order := order + [sid];
      todo := todo - {sid};
    }
  }

  lemma FireAllSnoc(v: Db, cal: Calendar, fires: seq<Fire>, k: nat)
    requires k < |fires| && forall i :: 0 <= i < |fires| ==> fires[i].schedule in v.schedules
    ensures var w := FireAll(v, cal, fires[..k]);
            FireAll(v, cal, fires[..k + 1]) == FireOne(w, cal, fires[k].schedule, fires[k].run, fires[k].at)
  {
    assert fires[..k + 1][..k] == fires[..k];
  }

  /** The loop of tick over the fetched rows. */
  method FireRows(db: Database, cal: Calendar, fires: seq<Fire>)
    requires db.Valid() && Fireable(db.View(), fires)
    modifies db
    ensures db.Valid() && db.View() == FireAll(old(db.View()), cal, fires)
  {
    ghost var v := db.View();
    var k := 0;
    while k < |fires|
      invariant 0 <= k <= |fires|
      invariant db.Valid() && db.View() == FireAll(v, cal, fires[..k])
      invariant forall i :: k <= i < |fires| ==> fires[i].run !in db.runs
    {
      FireAllSnoc(v, cal, fires, k);
      FireRow(db, cal, fires[k]);
      k := k + 1;
    }
    assert fires[..k] == fires;
  }

  /** One firing, column by column: the next instant after the clock reading, and a run of one attempt. */
  ghost predicate FiredAs(v: Db, w: Db, cal: Calendar, f: Fire)
    requires f.schedule in v.schedules
  {
    var s := v.schedules[f.schedule];
    && f.schedule in w.schedules && f.run in w.cells
    && w.schedules[f.schedule] == s.(nextRunAt := cal.next(s.cronExpr, s.timezone, f.at), lastRunAt := Some(v.clock),
                                     lastRunId := Some(f.run))
    && w.cells[f.run].row == Row(agent := s.agent, status := Queued, trigger := Scheduled, params := s.params,
                                 scheduleId := Some(f.schedule), attempts := 0, maxAttempts := 1,
                                 availableAt := v.clock, createdAt := v.clock, tags := "{}",
                                 lockedBy := None, leaseExpiresAt := None, sessionId := None, result := None,
                                 error := None, costUsd := None, startedAt := None, finishedAt := None)
    && w.cells[f.run].events == [StatusChange(None, Queued, Enqueued(Scheduled))] && w.cells[f.run].approvals == []
  }

  /** A tick leaves the schedules it does not fire and the runs it does not add. */
  lemma {:induction false} OthersStay(v: Db, cal: Calendar, fires: seq<Fire>)
    requires forall i :: 0 <= i < |fires| ==> fires[i].schedule in v.schedules
    ensures var w := FireAll(v, cal, fires);
            && (forall sid :: sid in v.schedules && (forall i :: 0 <= i < |fires| ==> fires[i].schedule != sid) ==>
                  w.schedules[sid] == v.schedules[sid])
            && (forall id :: id in v.cells && (forall i :: 0 <= i < |fires| ==> fires[i].run != id) ==>
                  id in w.cells && w.cells[id] == v.cells[id])
  {
    if fires != [] {
      var init := fires[..|fires| - 1];
      OthersStay(v, cal, init);
      assert forall i :: 0 <= i < |init| ==> init[i] == fires[i];
    }
  }

  lemma FireableInit(v: Db, fires: seq<Fire>)
    requires Fireable(v, fires) && fires != []
    ensures Fireable(v, fires[..|fires| - 1])
    ensures var init, last := fires[..|fires| - 1], fires[|fires| - 1];
            && last.schedule in v.schedules && last.run !in v.cells && last.at >= v.clock
            && forall i :: 0 <= i < |init| ==> init[i].run != last.run && init[i].schedule != last.schedule
  {
  }

  lemma {:induction false} EachFiredAs(v: Db, cal: Calendar, fires: seq<Fire>, k: nat)
    requires Fireable(v, fires) && k < |fires|
    ensures FiredAs(v, FireAll(v, cal, fires), cal, fires[k])
  {
    var init, last := fires[..|fires| - 1], fires[|fires| - 1];
    FireableInit(v, fires);
    if k == |fires| - 1 {
      OthersStay(v, cal, init);
    } else {
      assert init[k] == fires[k];
      EachFiredAs(v, cal, init, k);
    }
  }

  /** What a tick makes of one row: if it is enabled, unlocked and its instant has come it fires, whatever
      it has done before; else it does not change. */
  ghost predicate RowTicked(v: Db, w: Db, cal: Calendar, locked: set<ScheduleId>, fires: seq<Fire>, sid: ScheduleId)
    requires sid in v.schedules
  {
    if sid !in locked && v.schedules[sid].enabled && v.schedules[sid].nextRunAt <= v.clock
    then exists k :: 0 <= k < |fires| && fires[k].schedule == sid && FiredAs(v, w, cal, fires[k])
    else sid in w.schedules && w.schedules[sid] == v.schedules[sid]
  }

  lemma RowTicks(v: Db, w: Db, cal: Calendar, locked: set<ScheduleId>, fires: seq<Fire>, sid: ScheduleId)
    requires CoversDue(v, locked, fires) && sid in v.schedules && w == FireAll(v, cal, fires)
    ensures RowTicked(v, w, cal, locked, fires, sid)
  {
    if sid in Due(v, locked) {
      var k :| 0 <= k < |fires| && fires[k].schedule == sid;
      EachFiredAs(v, cal, fires, k);
    } else {
      OthersStay(v, cal, fires);
    }
  }

  /** A tick, row by row; runs that are there stay as they are. */
  ghost predicate Ticked(v: Db, w: Db, cal: Calendar, locked: set<ScheduleId>, fires: seq<Fire>) {
    && (forall sid :: sid in v.schedules ==> RowTicked(v, w, cal, locked, fires, sid))
    && (forall id :: id in v.cells ==> id in w.cells && w.cells[id] == v.cells[id])
  }

  lemma TickColumns(v: Db, w: Db, cal: Calendar, locked: set<ScheduleId>, fires: seq<Fire>)
    requires CoversDue(v, locked, fires) && w == FireAll(v, cal, fires)
    ensures Ticked(v, w, cal, locked, fires)
    ensures Due(v, locked) == set sid | sid in v.schedules && sid !in locked && v.schedules[sid].enabled
                                        && v.schedules[sid].nextRunAt <= v.clock
  {
    forall sid | sid in v.schedules {
      RowTicks(v, w, cal, locked, fires, sid);
    }
    OthersStay(v, cal, fires);
  }

  /** `keys` is the supply of generated run ids, one for each due row; `at` the clock readings. */
  method Tick(db: Database, cal: Calendar, locked: set<ScheduleId>, keys: seq<RunId>, at: seq<Time>)
    returns (fired: nat, ghost fires: seq<Fire>)
    requires db.Valid()
    requires |keys| == |at| == |Due(db.View(), locked)|
    requires forall i :: 0 <= i < |keys| ==> keys[i] !in db.runs && at[i] >= db.clock
    requires forall i, j :: 0 <= i < j < |keys| ==> keys[i] != keys[j]
    modifies db
    ensures db.Valid()
    ensures CoversDue(old(db.View()), locked, fires)
    ensures db.View() == FireAll(old(db.View()), cal, fires)
    ensures fired == |Due(old(db.View()), locked)|
    ensures fired == |set sid | sid in old(db.schedules) && sid !in locked && old(db.schedules)[sid].enabled
                                && old(db.schedules)[sid].nextRunAt <= db.clock|
    ensures Ticked(old(db.View()), db.View(), cal, locked, fires)
  {
    ghost var v := db.View();
    var due := FetchDue(db, locked);
    var rows := seq(|due|, i requires 0 <= i < |due| => Fire(due[i], keys[i], at[i]));
    FetchedCovers(db.View(), locked, due, rows);
    FireRows(db, cal, rows);
    TickColumns(v, db.View(), cal, locked, rows);
    fired, fires := |rows|, rows;
  }

  lemma FetchedCovers(v: Db, locked: set<ScheduleId>, due: seq<ScheduleId>, rows: seq<Fire>)
    requires |rows| == |due| && forall i :: 0 <= i < |rows| ==> rows[i].schedule == due[i]
    requires forall i :: 0 <= i < |rows| ==> rows[i].run !in v.cells && rows[i].at >= v.clock
    requires forall i, j :: 0 <= i < j < |rows| ==> rows[i].run != rows[j].run
    requires forall i :: 0 <= i < |due| ==> due[i] in Due(v, locked)
    requires forall sid :: sid in Due(v, locked) ==> sid in due
    requires forall i, j :: 0 <= i < j < |due| ==> due[i] != due[j]
    ensures CoversDue(v, locked, rows)
  {
    forall sid | sid in Due(v, locked)
      ensures exists i :: 0 <= i < |rows| && rows[i].schedule == sid
    {
      var i :| 0 <= i < |due| && due[i] == sid;
      assert rows[i].schedule == sid;
    }
  }

  // ---- schedule rows ------------------------------------------------------

  /** The row that ON CONFLICT (agent, cron_expr) would hit. */
  predicate Conflicts(s: Schedule, agent: string, expr: string) {
    s.agent == agent && s.cronExpr == expr
  }

  function NewSchedule(cal: Calendar, agent: string, expr: string, tz: string, params: Json, at: Time): Schedule {
    var s := Schedule(agent, expr, tz, params, true, 0, None, None);
    s.(nextRunAt := ComputeNext(cal, s, at))
  }

  function ToggleRow(v: Db, sid: ScheduleId): Db {
    if sid !in v.schedules then v
    else v.(schedules := v.schedules[sid := v.schedules[sid].(enabled := !v.schedules[sid].enabled)])
  }

  method ToggleSchedule(db: Database, sid: ScheduleId) returns (r: Option<bool>)
    requires db.Valid()
    modifies db
    ensures db.Valid()
    ensures db.View() == ToggleRow(old(db.View()), sid)
    ensures db.schedules == if sid !in old(db.schedules) then old(db.schedules)
                            else
                              var was := old(db.schedules)[sid];
                              old(db.schedules)[sid := was.(enabled := !was.enabled)]
    ensures r == if sid in old(db.schedules) then Some(!old(db.schedules)[sid].enabled) else None
  {
    ghost var v := db.View();
    if sid !in db.schedules {
      return None;
    }
    db.schedules := db.schedules[sid := db.schedules[sid].(enabled := !db.schedules[sid].enabled)];
    assert db.View().cells == v.cells;
    return Some(db.schedules[sid].enabled);
  }

  /** The row with this agent and expression, if there is one. */
  ghost predicate Taken(v: Db, agent: string, expr: string) {
    exists sid :: sid in v.schedules && Conflicts(v.schedules[sid], agent, expr)
  }

  /** ON CONFLICT (agent, cron_expr) DO UPDATE SET enabled = true. */
  ghost function UpsertRow(v: Db, cal: Calendar, id: ScheduleId, agent: string, expr: string, tz: string, params: Json,
                           at: Time): Db
  {
    if Taken(v, agent, expr) then
      v.(schedules := map sid | sid in v.schedules ::
           if Conflicts(v.schedules[sid], agent, expr) then v.schedules[sid].(enabled := true) else v.schedules[sid])
    else v.(schedules := v.schedules[id := NewSchedule(cal, agent, expr, tz, params, at)])
  }

  /** What it does to the table: a row for the key is enabled and otherwise left alone; without one the
      new row is enabled and due at its next instant. */
  lemma UpsertColumns(v: Db, cal: Calendar, id: ScheduleId, agent: string, expr: string, tz: string, params: Json,
                      at: Time)
    ensures var w := UpsertRow(v, cal, id, agent, expr, tz, params, at);
            && w == v.(schedules := w.schedules)
            && if exists sid :: sid in v.schedules
                                && v.schedules[sid].agent == agent && v.schedules[sid].cronExpr == expr
               then
                 && w.schedules.Keys == v.schedules.Keys
                 && forall sid :: sid in v.schedules ==>
                      w.schedules[sid] ==
                      if v.schedules[sid].agent == agent && v.schedules[sid].cronExpr == expr
                      then v.schedules[sid].(enabled := true) else v.schedules[sid]
               else
                 w.schedules == v.schedules[id := Schedule(agent := agent, cronExpr := expr, timezone := tz,
                                                           params := params, enabled := true,
                                                           nextRunAt := cal.next(expr, tz, at),
                                                           lastRunAt := None, lastRunId := None)]
  {
    if sid :| sid in v.schedules && v.schedules[sid].agent == agent && v.schedules[sid].cronExpr == expr {
      assert Conflicts(v.schedules[sid], agent, expr);
    }
  }

  /** What create_schedule answers: 404, 422, or the id of the row. */
  datatype Creation = NoSuchAgent | InvalidCron | Accepted(id: ScheduleId)

  /** `known` are the registered agents, `valid` is croniter.is_valid. */
  method CreateSchedule(db: Database, cal: Calendar, known: set<string>, valid: string -> bool, id: ScheduleId,
                        agent: string, expr: string, tz: string, params: Json, at: Time) returns (r: Creation)
    requires db.Valid() && id !in db.schedules
    modifies db
    ensures db.Valid()
    ensures r.NoSuchAgent? <==> agent !in known
    ensures r.InvalidCron? <==> agent in known && !valid(expr)
    ensures db.View() == if r.Accepted? then UpsertRow(old(db.View()), cal, id, agent, expr, tz, params, at)
                         else old(db.View())
    ensures r.Accepted? ==>
              && r.id in db.schedules && db.schedules[r.id].enabled && Conflicts(db.schedules[r.id], agent, expr)
              && r.id in if Taken(old(db.View()), agent, expr) then old(db.schedules).Keys else {id}
  {
    if agent !in known {
      return NoSuchAgent;
    }
    if !valid(expr) {
      return InvalidCron;
    }
    var sid := Upsert(db, cal, id, agent, expr, tz, params, at);
    r := Accepted(sid);
  }

  /** INSERT ... ON CONFLICT ... RETURNING id. */
  method Upsert(db: Database, cal: Calendar, id: ScheduleId, agent: string, expr: string, tz: string, params: Json,
                at: Time) returns (sid: ScheduleId)
    requires db.Valid() && id !in db.schedules
    modifies db
    ensures db.Valid()
    ensures db.View() == UpsertRow(old(db.View()), cal, id, agent, expr, tz, params, at)
    ensures sid in db.schedules && db.schedules[sid].enabled && Conflicts(db.schedules[sid], agent, expr)
    ensures sid in if Taken(old(db.View()), agent, expr) then old(db.schedules).Keys else {id}
  {
    ghost var v := db.View();
    var hit := set sid | sid in db.schedules && Conflicts(db.schedules[sid], agent, expr);
    if hit != {} {
      sid :| sid in hit;
      assert Taken(v, agent, expr) by {
        assert Conflicts(v.schedules[sid], agent, expr);
      }
      db.schedules := map x | x in db.schedules ::
        if x in hit then db.schedules[x].(enabled := true) else db.schedules[x];
    } else {
      sid := id;
      assert !Taken(v, agent, expr) by {
        forall x | x in v.schedules
          ensures !Conflicts(v.schedules[x], agent, expr)
        {
          assert x !in hit;
        }
      }
      db.schedules := db.schedules[id := NewSchedule(cal, agent, expr, tz, params, at)];
    }
    assert db.View().cells == v.cells;
    assert db.View().schedules == UpsertRow(v, cal, id, agent, expr, tz, params, at).schedules;
  }

  // ---- sync_from_registry -------------------------------------------------

  /** What the manifest of an agent says. */
  datatype Agent = Agent(requiresApproval: bool, schedule: Option<string>, params: Json)

  type Registry = map<string, Agent>

  predicate HasDefault(agent: Agent) {
    agent.schedule.Some? && agent.schedule.value != ""
  }

  /** ON CONFLICT (agent, cron_expr) DO NOTHING. */
  ghost function SyncOne(v: Db, cal: Calendar, id: ScheduleId, name: string, agent: Agent, at: Time): Db {
    if !HasDefault(agent) || Taken(v, name, agent.schedule.value) then v
    else v.(schedules := v.schedules[id := NewSchedule(cal, name, agent.schedule.value, "UTC", agent.params, at)])
  }

  /** One manifest of the registry, with the key and the clock reading its row would get. */
  datatype Default = Default(name: string, agent: Agent, id: ScheduleId, at: Time)

  ghost function SyncAll(v: Db, cal: Calendar, defaults: seq<Default>): Db {
    if defaults == [] then v
    else
      var d := defaults[|defaults| - 1];
      SyncOne(SyncAll(v, cal, defaults[..|defaults| - 1]), cal, d.id, d.name, d.agent, d.at)
  }

  /** What a sync reports: the rows it inserted. */
  ghost function Created(v: Db, cal: Calendar, defaults: seq<Default>): seq<string> {
    if defaults == [] then []
    else
      var d := defaults[|defaults| - 1];
      var before := SyncAll(v, cal, defaults[..|defaults| - 1]);
      Created(v, cal, defaults[..|defaults| - 1])
      + (if HasDefault(d.agent) && !Taken(before, d.name, d.agent.schedule.value) then [Described(d)] else [])
  }

  function Described(d: Default): string
    requires HasDefault(d.agent)
  {
    d.name + " @ " + d.agent.schedule.value
  }

  method SyncRow(db: Database, cal: Calendar, d: Default) returns (created: bool)
    requires db.Valid() && d.id !in db.schedules
    modifies db
    ensures db.Valid()
    ensures db.View() == SyncOne(old(db.View()), cal, d.id, d.name, d.agent, d.at)
    ensures created <==> HasDefault(d.agent) && !Taken(old(db.View()), d.name, d.agent.schedule.value)
    ensures db.schedules.Keys <= old(db.schedules).Keys + {d.id}
  {
    ghost var v := db.View();
    if !HasDefault(d.agent) {
      return false;
    }
    var expr := d.agent.schedule.value;
    if exists sid :: sid in db.schedules && Conflicts(db.schedules[sid], d.name, expr) {
      return false;
    }
    db.schedules := db.schedules[d.id := NewSchedule(cal, d.name, expr, "UTC", d.agent.params, d.at)];
    assert d.id in db.schedules;
    assert db.View().cells == v.cells;
    return true;
  }

  /** Walks the registry in its order. */
  method SyncFromRegistry(db: Database, cal: Calendar, defaults: seq<Default>) returns (created: seq<string>)
    requires db.Valid()
    requires forall i :: 0 <= i < |defaults| ==> defaults[i].id !in db.schedules
    requires forall i, j :: 0 <= i < j < |defaults| ==> defaults[i].id != defaults[j].id
    modifies db
    ensures db.Valid()
    ensures db.View() == SyncAll(old(db.View()), cal, defaults)
    ensures created == Created(old(db.View()), cal, defaults)
  {
    created := [];
    var k := 0;
    while k < |defaults|
      invariant 0 <= k <= |defaults|
      invariant db.Valid() && db.View() == SyncAll(old(db.View()), cal, defaults[..k])
      invariant created == Created(old(db.View()), cal, defaults[..k])
      invariant forall i :: k <= i < |defaults| ==> defaults[i].id !in db.schedules
    {
      assert defaults[..k + 1][..k] == defaults[..k];
      var inserted := SyncRow(db, cal, defaults[k]);
      if inserted {
        created := created + [Described(defaults[k])];
      }
      k := k + 1;
    }
    assert defaults[..k] == defaults;
  }

  /** If the manifest has an expression, there is a row for it. */
  ghost predicate Provided(v: Db, d: Default) {
    d.agent.schedule.Some? && d.agent.schedule.value != "" ==>
      exists sid :: sid in v.schedules && v.schedules[sid].agent == d.name
                    && v.schedules[sid].cronExpr == d.agent.schedule.value
  }

  lemma TakenIsProvided(v: Db, d: Default)
    ensures Provided(v, d) <==> (HasDefault(d.agent) ==> Taken(v, d.name, d.agent.schedule.value))
  {
    if HasDefault(d.agent) {
      var expr := d.agent.schedule.value;
      if sid :| sid in v.schedules && v.schedules[sid].agent == d.name && v.schedules[sid].cronExpr == expr {
        assert Conflicts(v.schedules[sid], d.name, expr);
      }
    }
  }

  /** The row a default gets. */
  function DefaultRow(cal: Calendar, d: Default): Schedule {
    var expr := if d.agent.schedule.Some? then d.agent.schedule.value else "";
    Schedule(agent := d.name, cronExpr := expr, timezone := "UTC", params := d.agent.params, enabled := true,
             nextRunAt := cal.next(expr, "UTC", d.at), lastRunAt := None, lastRunId := None)
  }

  /** Existing rows are the operator's: a sync leaves each as it is. Afterwards every default of
      a manifest has a row, and syncing again, whatever keys and times it gets, changes nothing. */
  lemma {:induction false} SyncKeepsAndProvides(v: Db, cal: Calendar, defaults: seq<Default>)
    requires forall i :: 0 <= i < |defaults| ==> defaults[i].id !in v.schedules
    requires forall i, j :: 0 <= i < j < |defaults| ==> defaults[i].id != defaults[j].id
    ensures var w := SyncAll(v, cal, defaults);
            && w.cells == v.cells && w.clock == v.clock
            && (forall sid :: sid in v.schedules ==> sid in w.schedules && w.schedules[sid] == v.schedules[sid])
            && (forall sid :: sid in w.schedules && sid !in v.schedules ==>
                  exists i :: 0 <= i < |defaults| && defaults[i].id == sid)
            && (forall i :: 0 <= i < |defaults| ==> Provided(w, defaults[i]))
  {
    if defaults != [] {
      var n := |defaults| - 1;
      var before := SyncAll(v, cal, defaults[..n]);
      var w := SyncAll(v, cal, defaults);
      SyncKeepsAndProvides(v, cal, defaults[..n]);
      var d := defaults[n];
      assert d.id !in before.schedules;
      if HasDefault(d.agent) && !Taken(before, d.name, d.agent.schedule.value) {
        assert Conflicts(w.schedules[d.id], d.name, d.agent.schedule.value);
      }
      TakenIsProvided(w, d);
      forall i | 0 <= i < n
        ensures Provided(w, defaults[i])
      {
        assert defaults[..n][i] == defaults[i];
        StillProvided(before, w, defaults[i]);
      }
    }
  }

  lemma {:induction false} ResyncChangesNothing(v: Db, cal: Calendar, defaults: seq<Default>)
    requires forall i :: 0 <= i < |defaults| ==> Provided(v, defaults[i])
    ensures SyncAll(v, cal, defaults) == v
  {
    if defaults != [] {
      var n := |defaults| - 1;
      assert forall i :: 0 <= i < n ==> defaults[..n][i] == defaults[i];
      ResyncChangesNothing(v, cal, defaults[..n]);
      assert Provided(v, defaults[n]);
      TakenIsProvided(v, defaults[n]);
    }
  }

  lemma StillProvided(v: Db, w: Db, d: Default)
    requires Provided(v, d)
    requires forall sid :: sid in v.schedules ==> sid in w.schedules && w.schedules[sid] == v.schedules[sid]
    ensures Provided(w, d)
  {
    if d.agent.schedule.Some? && d.agent.schedule.value != "" {
      var sid :| sid in v.schedules && v.schedules[sid].agent == d.name
                 && v.schedules[sid].cronExpr == d.agent.schedule.value;
      assert sid in w.schedules && w.schedules[sid].agent == d.name;
    }
  }

  /** A row is added only for a default that had none. */
  lemma {:induction false} SyncAddsTheMissing(v: Db, cal: Calendar, defaults: seq<Default>, sid: ScheduleId)
    returns (i: nat)
    requires forall i :: 0 <= i < |defaults| ==> defaults[i].id !in v.schedules
    requires forall i, j :: 0 <= i < j < |defaults| ==> defaults[i].id != defaults[j].id
    requires sid in SyncAll(v, cal, defaults).schedules && sid !in v.schedules
    ensures i < |defaults| && defaults[i].id == sid && !Provided(v, defaults[i])
    ensures SyncAll(v, cal, defaults).schedules[sid] == DefaultRow(cal, defaults[i])
  {
    var n := |defaults| - 1;
    var before, d := SyncAll(v, cal, defaults[..n]), defaults[n];
    SyncKeepsAndProvides(v, cal, defaults[..n]);
    if sid in before.schedules {
      i := SyncAddsTheMissing(v, cal, defaults[..n], sid);
      assert defaults[..n][i].id == sid;
    } else {
      i := n;
      TakenIsProvided(before, d);
      if Provided(v, d) {
        StillProvided(v, before, d);
      }
    }
  }

  /** The report of a sync: for each row inserted, in the order of the registry, its name and expression. */
  lemma {:induction false} ReportIsInserted(v: Db, cal: Calendar, defaults: seq<Default>)
    requires forall i :: 0 <= i < |defaults| ==> defaults[i].id !in v.schedules
    requires forall i, j :: 0 <= i < j < |defaults| ==> defaults[i].id != defaults[j].id
    ensures Created(v, cal, defaults) == Inserted(SyncAll(v, cal, defaults), defaults)
  {
    if defaults != [] {
      var n := |defaults| - 1;
      var before, w := SyncAll(v, cal, defaults[..n]), SyncAll(v, cal, defaults);
      ReportIsInserted(v, cal, defaults[..n]);
      SyncKeepsAndProvides(v, cal, defaults[..n]);
      assert defaults[n].id !in before.schedules;
      SameInserted(before, w, defaults[..n]);
    }
  }

  /** The defaults that have the row of their key, as they are reported. */
  function Inserted(w: Db, defaults: seq<Default>): seq<string> {
    if defaults == [] then []
    else
      var d := defaults[|defaults| - 1];
      Inserted(w, defaults[..|defaults| - 1])
      + (if d.id in w.schedules && d.agent.schedule.Some? then [d.name + " @ " + d.agent.schedule.value] else [])
  }

  lemma {:induction false} SameInserted(v: Db, w: Db, defaults: seq<Default>)
    requires forall i :: 0 <= i < |defaults| ==> (defaults[i].id in v.schedules <==> defaults[i].id in w.schedules)
    ensures Inserted(v, defaults) == Inserted(w, defaults)
  {
    if defaults != [] {
      SameInserted(v, w, defaults[..|defaults| - 1]);
    }
  }
}
