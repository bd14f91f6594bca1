/** The Postgres-backed run queue: a run row is the queue item. */
module Queue {
  import opened Wrappers
  import opened Models
  import opened Store

  // ---- enqueue ------------------------------------------------------------

  function NewRow(agent: string, trigger: Trigger, params: Json, schedule: Option<ScheduleId>, maxAttempts: int,
                  tags: Json, now: Time): Row
  {
    Row(agent, Queued, trigger, params, schedule, 0, maxAttempts, now, None, None, None, None, None, None,
        now, None, None, tags)
  }

  function NewCell(row: Row): Cell {
    Cell(row, [StatusChange(None, Queued, Enqueued(row.trigger))], [])
  }

  /** INSERT INTO runs, and the event row that starts the audit. */
  method InsertRun(db: Database, id: RunId, row: Row)
    requires db.Valid() && id !in db.runs
    modifies db
    ensures db.Valid()
    ensures var v := old(db.View()); db.View() == v.(cells := v.cells[id := NewCell(row)])
    ensures db.runs.Keys == old(db.runs).Keys + {id} && db.schedules == old(db.schedules) && db.clock == old(db.clock)
  {
    ghost var v := db.View();
    db.runs := db.runs[id := row];
    db.events := db.events[id := [StatusChange(None, Queued, Enqueued(row.trigger))]];
    db.approvals := db.approvals[id := []];
    Stored(v, db.View(), id, NewCell(row));
  }

  /** `id` is the generated primary key. */
  method Enqueue(db: Database, id: RunId, agent: string, trigger: Trigger, params: Json,
                 schedule: Option<ScheduleId>, maxAttempts: int, tags: Json)
    returns (r: Result<RunId, Error>)
    requires db.Valid()
    modifies db
    ensures db.Valid()
    ensures r == if id in old(db.runs) || (schedule.Some? && schedule.value !in old(db.schedules))
                 then Failure(Constraint) else Success(id)
    ensures r.Failure? ==> db.View() == old(db.View())
    ensures r.Success? ==>
              var v := old(db.View());
              db.View() == v.(cells := v.cells[id := NewCell(NewRow(agent, trigger, params, schedule, maxAttempts,
                                                                   tags, v.clock))])
    ensures r.Success? ==>
              && db.runs[id] == Row(agent := agent, status := Queued, trigger := trigger, params := params,
                                    scheduleId := schedule, attempts := 0, maxAttempts := maxAttempts,
                                    availableAt := db.clock, createdAt := db.clock, tags := tags,
                                    lockedBy := None, leaseExpiresAt := None, sessionId := None, result := None,
                                    error := None, costUsd := None, startedAt := None, finishedAt := None)
              && db.events[id] == [StatusChange(None, Queued, Enqueued(trigger))] && db.approvals[id] == []
  {
    if id in db.runs || (schedule.Some? && schedule.value !in db.schedules) {
      return Failure(Constraint);
    }
    InsertRun(db, id, NewRow(agent, trigger, params, schedule, maxAttempts, tags, db.clock));
    return Success(id);
  }

  // ---- claim --------------------------------------------------------------

  predicate Claimable(row: Row, now: Time) {
    row.status == Queued && row.availableAt <= now
  }

  /** The rows the claim query may pick, given the rows other transactions hold locked. */
  ghost function Candidates(v: Db, locked: set<RunId>): set<RunId> {
    set id | id in v.cells && id !in locked && Claimable(v.cells[id].row, v.clock)
  }

  /** ORDER BY created_at LIMIT 1: some candidate that no candidate precedes. */
  ghost predicate Oldest(v: Db, locked: set<RunId>, id: RunId) {
    && id in Candidates(v, locked)
    && forall other :: other in Candidates(v, locked) ==> v.cells[id].row.createdAt <= v.cells[other].row.createdAt
  }

  function ClaimedRow(row: Row, worker: WorkerId, lease: int, now: Time): Row {
    row.(lockedBy := Some(worker),
         attempts := row.attempts + 1,
         startedAt := if row.startedAt.Some? then row.startedAt else Some(now),
         leaseExpiresAt := Some(now + lease * MINUTE))
  }

  function ClaimCell(c: Cell, worker: WorkerId, lease: int, now: Time): Cell {
    Moved(c, Running, (row: Row) => ClaimedRow(row, worker, lease, now), ByWorker(worker))
  }

  lemma OldestExists(v: Db, ids: set<RunId>)
    requires ids != {} && ids <= v.cells.Keys
    ensures exists id :: id in ids &&
              forall other :: other in ids ==> v.cells[id].row.createdAt <= v.cells[other].row.createdAt
    decreases |ids|
  {
    var x :| x in ids;
    if ids != {x} {
      OldestExists(v, ids - {x});
      var y :| y in ids - {x} &&
               forall other :: other in ids - {x} ==> v.cells[y].row.createdAt <= v.cells[other].row.createdAt;
      var best := if v.cells[x].row.createdAt <= v.cells[y].row.createdAt then x else y;
      assert forall other :: other in ids ==> other == x || other in ids - {x};
      assert best in ids;
      assert forall other :: other in ids ==> v.cells[best].row.createdAt <= v.cells[other].row.createdAt;
    } else {
      assert forall other :: other in ids ==> other == x;
    }
  }

  /** The SELECT of the claim query. `locked` are the rows FOR UPDATE SKIP LOCKED passes over. */
  method SelectOldest(db: Database, locked: set<RunId>) returns (r: Option<RunId>)
    requires db.Valid()
    ensures r.None? <==> Candidates(db.View(), locked) == {}
    ensures r.Some? ==> r.value in db.runs && Oldest(db.View(), locked, r.value)
    ensures r.None? ==> forall id :: id in db.runs && id !in locked && db.runs[id].status == Queued ==>
                          db.runs[id].availableAt > db.clock
    ensures r.Some? ==>
              && r.value !in locked && db.runs[r.value].status == Queued && db.runs[r.value].availableAt <= db.clock
              && forall id :: id in db.runs && id !in locked && db.runs[id].status == Queued
                              && db.runs[id].availableAt <= db.clock ==>
                   db.runs[r.value].createdAt <= db.runs[id].createdAt
  {
    ghost var v := db.View();
    var queued := set id | id in db.runs && id !in locked && Claimable(db.runs[id], db.clock);
    assert queued == Candidates(v, locked);
    assert forall id :: id in db.runs && id !in locked && db.runs[id].status == Queued && id !in queued ==>
             db.runs[id].availableAt > db.clock;
    if queued == {} {
      return None;
    }
    OldestExists(v, queued);
    assert forall id :: id in queued ==> db.runs[id] == v.cells[id].row;
    var id :| id in queued && forall other :: other in queued ==> db.runs[id].createdAt <= db.runs[other].createdAt;
    return Some(id);
  }

  lemma ClaimColumns(c: Cell, worker: WorkerId, lease: int, now: Time)
    requires c.row.status == Queued
    ensures ClaimCell(c, worker, lease, now) == Cell(
              c.row.(status := Running, lockedBy := Some(worker), attempts := c.row.attempts + 1,
                     startedAt := if c.row.startedAt.Some? then c.row.startedAt else Some(now),
                     leaseExpiresAt := Some(now + 60 * lease)),
              c.events + [StatusChange(Some(Queued), Running, ByWorker(worker))],
              c.approvals)
  {
  }

  /** The UPDATE of the row that was selected, and its event. */
  method TakeRow(db: Database, id: RunId, worker: WorkerId, lease: int)
    requires db.Valid() && id in db.runs && db.runs[id].status == Queued
    modifies db
    ensures db.Valid()
    ensures var v := old(db.View());
            db.View() == v.(cells := v.cells[id := ClaimCell(v.cells[id], worker, lease, v.clock)])
    ensures var was := old(db.runs)[id];
            db.runs == old(db.runs)[id := was.(
              status := Running, lockedBy := Some(worker), attempts := was.attempts + 1,
              startedAt := if was.startedAt.Some? then was.startedAt else Some(db.clock),
              leaseExpiresAt := Some(db.clock + 60 * lease))]
    ensures db.events == old(db.events)[id :=
              old(db.events)[id] + [StatusChange(Some(Queued), Running, ByWorker(worker))]]
    ensures db.clock == old(db.clock)
  {
    ghost var v := db.View();
    ClaimColumns(v.cells[id], worker, lease, v.clock);
    db.runs := db.runs[id := ClaimedRow(db.runs[id], worker, lease, db.clock).(status := Running)];
    db.events := db.events[id := db.events[id] + [StatusChange(Some(Queued), Running, ByWorker(worker))]];
    Stored(v, db.View(), id, ClaimCell(v.cells[id], worker, lease, v.clock));
  }

  /** Returns the claimed row. */
  method Claim(db: Database, worker: WorkerId, lease: int, locked: set<RunId>) returns (r: Option<(RunId, Row)>)
    requires db.Valid()
    modifies db
    ensures db.Valid()
    ensures r.None? <==> Candidates(old(db.View()), locked) == {}
    ensures r.None? ==> db.View() == old(db.View())
    ensures r.Some? ==>
              var v := old(db.View()); var (id, row) := r.value;
              && Oldest(v, locked, id)
              && db.View() == v.(cells := v.cells[id := ClaimCell(v.cells[id], worker, lease, v.clock)])
              && row == db.View().cells[id].row
    ensures r.None? <==> forall id :: id in old(db.runs) && id !in locked && old(db.runs)[id].status == Queued ==>
                           old(db.runs)[id].availableAt > db.clock
    ensures r.Some? ==>
              && r.value.0 in old(db.runs) && r.value.0 !in locked
              && old(db.runs)[r.value.0].status == Queued && old(db.runs)[r.value.0].availableAt <= db.clock
              && forall id :: id in old(db.runs) && id !in locked && old(db.runs)[id].status == Queued
                              && old(db.runs)[id].availableAt <= db.clock ==>
                   old(db.runs)[r.value.0].createdAt <= old(db.runs)[id].createdAt
    ensures r.Some? ==>
              var id := r.value.0; var was := old(db.runs)[id];
              && db.runs == old(db.runs)[id := was.(
                   status := Running, lockedBy := Some(worker), attempts := was.attempts + 1,
                   startedAt := if was.startedAt.Some? then was.startedAt else Some(db.clock),
                   leaseExpiresAt := Some(db.clock + 60 * lease))]
              && db.events == old(db.events)[id :=
                   old(db.events)[id] + [StatusChange(Some(Queued), Running, ByWorker(worker))]]
  {
    ghost var v := db.View();
    var picked := SelectOldest(db, locked);
    if picked.None? {
      return None;
    }
    var id := picked.value;
    TakeRow(db, id, worker, lease);
    return Some((id, db.runs[id]));
  }

  // ---- heartbeat ----------------------------------------------------------

  predicate Owns(row: Row, worker: WorkerId) {
    row.status == Running && row.lockedBy == Some(worker)
  }

  function HeartbeatCell(c: Cell, worker: WorkerId, lease: int, now: Time): Cell {
    if Owns(c.row, worker) then c.(row := c.row.(leaseExpiresAt := Some(now + lease * MINUTE))) else c
  }

  method Heartbeat(db: Database, id: RunId, worker: WorkerId, lease: int) returns (mine: bool)
    requires db.Valid()
    modifies db
    ensures db.Valid()
    ensures mine <==> id in old(db.runs) && Owns(old(db.runs[id]), worker)
    ensures id in old(db.runs) ==>
              var v := old(db.View());
              db.View() == v.(cells := v.cells[id := HeartbeatCell(v.cells[id], worker, lease, v.clock)])
    ensures id !in old(db.runs) ==> db.View() == old(db.View())
    ensures mine <==> && id in old(db.runs) && old(db.runs)[id].status == Running
                      && old(db.runs)[id].lockedBy == Some(worker)
    ensures db.runs == if mine then old(db.runs)[id := old(db.runs)[id].(leaseExpiresAt := Some(db.clock + 60 * lease))]
                       else old(db.runs)
  {
    ghost var v := db.View();
    mine := id in db.runs && db.runs[id].status == Running && db.runs[id].lockedBy == Some(worker);
    if mine {
      db.runs := db.runs[id := db.runs[id].(leaseExpiresAt := Some(db.clock + lease * MINUTE))];
    }
    if id in db.runs {
      Stored(v, db.View(), id, HeartbeatCell(v.cells[id], worker, lease, v.clock));
    }
  }

  // ---- finish -------------------------------------------------------------

  /** What an execution hands back; `completed` false stands for status 'failed'. */
  datatype Report = Report(completed: bool, result: Option<string>, error: Option<string>, costUsd: Option<real>,
                           sessionId: Option<string>)

  function FinishStatus(report: Report): RunStatus {
    if report.completed then Completed else Failed
  }

  function FinishedRow(row: Row, report: Report, now: Time): Row {
    row.(result := report.result,
         error := report.error,
         costUsd := report.costUsd,
         sessionId := if report.sessionId.Some? then report.sessionId else row.sessionId,
         finishedAt := Some(now),
         lockedBy := None,
         leaseExpiresAt := None)
  }

  function FinishCell(c: Cell, report: Report, now: Time): Cell {
    Moved(c, FinishStatus(report), (row: Row) => FinishedRow(row, report, now), Outcome(report.error))
  }

  /** Checks the status only: whoever calls it, the running run is finished. */
  method Finish(db: Database, id: RunId, report: Report) returns (r: Result<(), Error>)
    requires db.Valid()
    modifies db
    ensures db.Valid()
    ensures r.Success? <==> id in old(db.runs) && old(db.runs[id]).status == Running
    ensures r.Success? ==>
              var v := old(db.View());
              db.View() == v.(cells := v.cells[id := FinishCell(v.cells[id], report, v.clock)])
    ensures r.Failure? ==> db.View() == old(db.View()) && r.error == IllegalTransition
    ensures r.Success? ==>
              var was, end := old(db.runs)[id], if report.completed then Completed else Failed;
              && db.runs == old(db.runs)[id := was.(
                   status := end, result := report.result, error := report.error, costUsd := report.costUsd,
                   sessionId := if report.sessionId.Some? then report.sessionId else was.sessionId,
                   finishedAt := Some(db.clock), lockedBy := None, leaseExpiresAt := None)]
              && db.events == old(db.events)[id :=
                   old(db.events)[id] + [StatusChange(Some(Running), end, Outcome(report.error))]]
  {
    var now := db.clock;
    ghost var v := db.View();
    r := Transition(db, id, Running, FinishStatus(report), (row: Row) => FinishedRow(row, report, now),
                    Outcome(report.error));
    if r.Success? {
      Stored(v, db.View(), id, FinishCell(v.cells[id], report, now));
    }
  }

  // ---- record_event -------------------------------------------------------

  method RecordEvent(db: Database, id: RunId, event: Event)
    requires db.Valid() && id in db.runs
    modifies db
    ensures db.Valid()
    ensures var v := old(db.View());
            db.View() == v.(cells := v.cells[id := v.cells[id].(events := v.cells[id].events + [event])])
    ensures db.runs == old(db.runs) && db.clock == old(db.clock)
    ensures db.events == old(db.events)[id := old(db.events[id]) + [event]]
    ensures db.approvals == old(db.approvals) && db.schedules == old(db.schedules)
  {
    db.events := db.events[id := db.events[id] + [event]];
  }

  // ---- reap_expired -------------------------------------------------------

  predicate LeaseOver(row: Row, now: Time) {
    row.status == Running && row.leaseExpiresAt.Some? && row.leaseExpiresAt.value < now
  }

  function RequeuedRow(row: Row): Row {
    row.(lockedBy := None, leaseExpiresAt := None)
  }

  function RequeueCell(c: Cell): Cell {
    Moved(c, Queued, RequeuedRow, LeaseExpired)
  }

  const EXHAUSTED := "lease expired; attempts exhausted"

  function ExhaustedRow(row: Row, now: Time): Row {
    row.(error := Some(EXHAUSTED), lockedBy := None, leaseExpiresAt := None, finishedAt := Some(now))
  }

  function ExhaustCell(c: Cell, now: Time): Cell {
    Moved(c, Failed, (row: Row) => ExhaustedRow(row, now), LeaseExpired)
  }

  function ReapCell(c: Cell, now: Time): Cell {
    if !LeaseOver(c.row, now) then c
    else if c.row.attempts < c.row.maxAttempts then RequeueCell(c)
    else ExhaustCell(c, now)
  }

  ghost function Reap(v: Db, locked: set<RunId>): Db {
    v.(cells := map id | id in v.cells :: if id in locked then v.cells[id] else ReapCell(v.cells[id], v.clock))
  }

  /** The runs one reap touches. */
  ghost function Overdue(v: Db, locked: set<RunId>): set<RunId> {
    set id | id in v.cells && id !in locked && LeaseOver(v.cells[id].row, v.clock)
  }

  /** One audit event for each id, as the two loops at the end of the reaper write them. */
  method RecordExpiry(db: Database, ids: set<RunId>, to: RunStatus)
    requires db.Valid() && ids <= db.runs.Keys
    modifies db
    ensures db.Valid()
    ensures db.runs == old(db.runs) && db.approvals == old(db.approvals)
    ensures db.schedules == old(db.schedules) && db.clock == old(db.clock)
    ensures forall id :: id in db.events ==>
              db.events[id] == if id in ids then old(db.events)[id] + [StatusChange(Some(Running), to, LeaseExpired)]
                               else old(db.events)[id]
  {
    var todo := ids;
    while todo != {}
      invariant todo <= ids
      invariant db.Valid()
      invariant db.runs == old(db.runs) && db.approvals == old(db.approvals)
      invariant db.schedules == old(db.schedules) && db.clock == old(db.clock)
      invariant forall id :: id in db.events ==>
                  db.events[id] == if id in ids - todo
                                   then old(db.events)[id] + [StatusChange(Some(Running), to, LeaseExpired)]
                                   else old(db.events)[id]
      decreases todo
    {
      var id :| id in todo;
      RecordEvent(db, id, StatusChange(Some(Running), to, LeaseExpired));
      todo := todo - {id};
    }
  }

  predicate Requeueable(row: Row, now: Time) {
    LeaseOver(row, now) && row.attempts < row.maxAttempts
  }

  predicate Exhausted(row: Row, now: Time) {
    LeaseOver(row, now) && row.attempts >= row.maxAttempts
  }

  /** The two UPDATE ... RETURNING statements. */
  method ExpireRows(db: Database, locked: set<RunId>) returns (requeued: set<RunId>, failed: set<RunId>)
    requires db.Valid()
    modifies db
    ensures db.Valid()
    ensures requeued == set id | id in old(db.runs) && id !in locked && Requeueable(old(db.runs)[id], db.clock)
    ensures failed == set id | id in old(db.runs) && id !in locked && Exhausted(old(db.runs)[id], db.clock)
    ensures db.runs.Keys == old(db.runs).Keys
    ensures forall id :: id in db.runs ==>
              db.runs[id] == if id in requeued then RequeuedRow(old(db.runs)[id]).(status := Queued)
                             else if id in failed then ExhaustedRow(old(db.runs)[id], db.clock).(status := Failed)
                             else old(db.runs)[id]
    ensures db.events == old(db.events) && db.approvals == old(db.approvals)
    ensures db.schedules == old(db.schedules) && db.clock == old(db.clock)
  {
    var now, runs := db.clock, db.runs;
    requeued := set id | id in runs && id !in locked && Requeueable(runs[id], now);
    failed := set id | id in runs && id !in locked && Exhausted(runs[id], now);
    db.runs := map id | id in runs ::
      if id in requeued then RequeuedRow(runs[id]).(status := Queued)
      else if id in failed then ExhaustedRow(runs[id], now).(status := Failed)
      else runs[id];
  }

  /** What a reap makes of one run, column by column: the lease is over when its end lies before now. */
  predicate ReapedAs(c: Cell, d: Cell, now: Time) {
    if c.row.status == Running && c.row.leaseExpiresAt.Some? && c.row.leaseExpiresAt.value < now then
      var end := if c.row.attempts < c.row.maxAttempts then Queued else Failed;
      && d.row == c.row.(status := end, lockedBy := None, leaseExpiresAt := None, error := d.row.error,
                         finishedAt := d.row.finishedAt)
      && (end == Queued ==> d.row.error == c.row.error && d.row.finishedAt == c.row.finishedAt)
      && (end == Failed ==> d.row.error == Some("lease expired; attempts exhausted") && d.row.finishedAt == Some(now))
      && d.events == c.events + [StatusChange(Some(Running), end, LeaseExpired)]
      && d.approvals == c.approvals
    else d == c
  }

  lemma ReapColumns(v: Db, locked: set<RunId>)
    ensures Reap(v, locked).cells.Keys == v.cells.Keys
    ensures forall id :: id in v.cells ==>
              if id in locked then Reap(v, locked).cells[id] == v.cells[id]
              else ReapedAs(v.cells[id], Reap(v, locked).cells[id], v.clock)
    ensures Overdue(v, locked) == set id | id in v.cells && id !in locked && v.cells[id].row.status == Running
                                         && v.cells[id].row.leaseExpiresAt.Some?
                                         && v.cells[id].row.leaseExpiresAt.value < v.clock
  {
  }

  method ReapExpired(db: Database, locked: set<RunId>) returns (n: nat)
    requires db.Valid()
    modifies db
    ensures db.Valid()
    ensures db.View() == Reap(old(db.View()), locked)
    ensures n == |Overdue(old(db.View()), locked)|
    ensures forall id :: id in old(db.runs) ==>
              var v := old(db.View());
              && id in db.runs
              && if id in locked then db.View().cells[id] == v.cells[id]
                 else ReapedAs(v.cells[id], db.View().cells[id], v.clock)
  {
    ghost var v := db.View();
    var requeued, failed := ExpireRows(db, locked);
    RecordExpiry(db, requeued, Queued);
    RecordExpiry(db, failed, Failed);
    n := |requeued| + |failed|;
    OverdueCount(v, locked, requeued, failed);
    Reaped(v, db.View(), locked, requeued, failed);
    ReapColumns(v, locked);
  }

  /** What the statements of the reaper did to one run. */
  ghost predicate ExpiredAs(c: Cell, d: Cell, requeued: bool, failed: bool, now: Time) {
    && d.approvals == c.approvals
    && (requeued ==> && d.row == RequeuedRow(c.row).(status := Queued)
                     && d.events == c.events + [StatusChange(Some(Running), Queued, LeaseExpired)])
    && (!requeued && failed ==> && d.row == ExhaustedRow(c.row, now).(status := Failed)
                                && d.events == c.events + [StatusChange(Some(Running), Failed, LeaseExpired)])
    && (!requeued && !failed ==> d == c)
  }

  lemma ReapedCell(c: Cell, d: Cell, now: Time)
    requires ExpiredAs(c, d, Requeueable(c.row, now), Exhausted(c.row, now), now)
    ensures d == ReapCell(c, now)
  {
  }

  lemma OverdueCount(v: Db, locked: set<RunId>, requeued: set<RunId>, failed: set<RunId>)
    requires requeued == set id | id in v.cells && id !in locked && Requeueable(v.cells[id].row, v.clock)
    requires failed == set id | id in v.cells && id !in locked && Exhausted(v.cells[id].row, v.clock)
    ensures |Overdue(v, locked)| == |requeued| + |failed|
  {
    assert Overdue(v, locked) == requeued + failed;
  }

  /** The statements of the reaper, taken together, map `ReapCell` over the unlocked runs. */
  lemma Reaped(v: Db, w: Db, locked: set<RunId>, requeued: set<RunId>, failed: set<RunId>)
    requires w.cells.Keys == v.cells.Keys && w.schedules == v.schedules && w.clock == v.clock
    requires requeued == set id | id in v.cells && id !in locked && Requeueable(v.cells[id].row, v.clock)
    requires failed == set id | id in v.cells && id !in locked && Exhausted(v.cells[id].row, v.clock)
    requires forall id :: id in v.cells ==> ExpiredAs(v.cells[id], w.cells[id], id in requeued, id in failed, v.clock)
    ensures w == Reap(v, locked)
  {
    forall id | id in v.cells
      ensures w.cells[id] == if id in locked then v.cells[id] else ReapCell(v.cells[id], v.clock)
    {
      if id !in locked {
        ReapedCell(v.cells[id], w.cells[id], v.clock);
      }
    }
    assert w.cells == Reap(v, locked).cells;
  }
}
