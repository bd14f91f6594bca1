/** process_once as a program: claim, consent gate, execute, finish, tag. Each turn of `Advance`
    is one transaction, or one local step, so that other parties can act between any two. */
module Worker {
  import opened Wrappers
  import opened Models
  import opened Store
  import opened Queue
  import opened Approvals
  import opened Scheduler

  /** Where a worker stands between two transactions. `row` is what claim returned. */
  datatype Pc =
    | Idle
    | Claimed(id: RunId, row: Row)
    | Parking(id: RunId, row: Row)  // the gate found no approval
    | Cleared(id: RunId)            // ungated, or the gate found an approval
    | Executing(id: RunId)          // the executor has been invoked
    | Tagging(id: RunId)            // the outcome is committed

  /** `report` is what the executor hands back, `tags` what it is tagged with. With `fused` the
      gate check and the parking are one step. */
  datatype Input = Input(report: Report, tags: Json, fused: bool)

  function GateAction(agent: string): string {
    "execute agent '" + agent + "'"
  }

  function UnknownAgent(agent: string): Report {
    Report(false, None, Some("unknown agent '" + agent + "'"), None, None)
  }

  predicate StillRunning(v: Db, id: RunId) {
    id in v.cells && v.cells[id].row.status == Running
  }

  /** The transaction of finish; an illegal transition raises and changes nothing. */
  function FinishIn(v: Db, id: RunId, report: Report): Db {
    if StillRunning(v, id) then v.(cells := v.cells[id := FinishCell(v.cells[id], report, v.clock)]) else v
  }

  function ParkIn(v: Db, id: RunId, row: Row): Db {
    if StillRunning(v, id)
    then v.(cells := v.cells[id := ParkCell(v.cells[id], GateAction(row.agent), row.params, v.clock)])
    else v
  }

  function TagIn(v: Db, id: RunId, tags: Json): Db {
    if id in v.cells then v.(cells := v.cells[id := v.cells[id].(row := v.cells[id].row.(tags := tags))]) else v
  }

  predicate Allowed(registry: Registry, v: Db, id: RunId, agent: string)
    requires agent in registry
  {
    !registry[agent].requiresApproval || (id in v.cells && Consented(v.cells[id].approvals))
  }

  /** The database and the place after one step of a busy worker. A step that raises ends the
      worker process: its successor starts idle. */
  function Advance(registry: Registry, v: Db, pc: Pc, input: Input): (Db, Pc) {
    match pc
    case Idle => (v, Idle)
    case Claimed(id, row) =>
      if row.agent !in registry then (FinishIn(v, id, UnknownAgent(row.agent)), Idle)
      else if Allowed(registry, v, id, row.agent) then (v, Cleared(id))
      else if input.fused then (ParkIn(v, id, row), Idle)
      else (v, Parking(id, row))
    case Parking(id, row) => (ParkIn(v, id, row), Idle)
    case Cleared(id) => (v, Executing(id))
    case Executing(id) => (FinishIn(v, id, input.report), if StillRunning(v, id) then Tagging(id) else Idle)
    case Tagging(id) => (TagIn(v, id, input.tags), Idle)
  }

  /** Steps a worker still has before it is idle again. */
  function Rank(pc: Pc): nat {
    match pc
    case Idle => 0
    case Tagging(_) => 1
    case Executing(_) => 2
    case Cleared(_) => 3
    case Parking(_, _) => 1
    case Claimed(_, _) => 4
  }

  /** A busy worker left alone until it is idle, and whether it invoked the executor. */
  function Settle(registry: Registry, v: Db, pc: Pc, input: Input): (Db, bool)
    decreases Rank(pc)
  {
    if pc.Idle? then (v, false)
    else
      var (w, next) := Advance(registry, v, pc, input);
      var (end, invoked) := Settle(registry, w, next, input);
      (end, invoked || pc.Cleared?)
  }

  /** The body of process_once after a successful claim. */
  method ProcessClaimed(db: Database, registry: Registry, id: RunId, row: Row, input: Input) returns (executed: bool)
    requires db.Valid() && id in db.runs && db.runs[id].status == Running
    modifies db
    ensures db.Valid()
    ensures (db.View(), executed) == Settle(registry, old(db.View()), Claimed(id, row), input)
  {
    ghost var v := db.View();
    SettleShape(registry, v, id, row, input);
    if row.agent !in registry {
      var failed := Finish(db, id, UnknownAgent(row.agent));
      return false;
    }
    if registry[row.agent].requiresApproval {
      var yes := HasApproved(db, id);
      if !yes {
        var asked := Request(db, id, GateAction(row.agent), row.params);
        return false;
      }
    }
    var done := Finish(db, id, input.report);
    UpdateTags(db, id, input.tags);
    return true;
  }

  /** The straight line through the steps of a claimed run that still runs. */
  lemma SettleShape(registry: Registry, v: Db, id: RunId, row: Row, input: Input)
    requires StillRunning(v, id)
    ensures Settle(registry, v, Claimed(id, row), input) ==
            if row.agent !in registry then (FinishIn(v, id, UnknownAgent(row.agent)), false)
            else if Allowed(registry, v, id, row.agent) then
              (TagIn(FinishIn(v, id, input.report), id, input.tags), true)
            else (ParkIn(v, id, row), false)
  {
    if row.agent in registry {
      if Allowed(registry, v, id, row.agent) {
        var w := FinishIn(v, id, input.report);
        assert Settle(registry, w, Tagging(id), input) == (TagIn(w, id, input.tags), false);
        assert Settle(registry, v, Executing(id), input) == (TagIn(w, id, input.tags), false);
      } else {
        assert Settle(registry, v, Parking(id, row), input) == (ParkIn(v, id, row), false);
      }
    }
  }

  ghost predicate Processed(registry: Registry, v: Db, worker: WorkerId, lease: int, input: Input, id: RunId, w: Db,
                            executed: bool)
  {
    && Oldest(v, {}, id)
    && var claimed := v.(cells := v.cells[id := ClaimCell(v.cells[id], worker, lease, v.clock)]);
       (w, executed) == Settle(registry, claimed, Claimed(id, claimed.cells[id].row), input)
  }

  /** process_once with nobody interfering. `executed` says whether the executor was invoked. */
  method ProcessOnce(db: Database, registry: Registry, worker: WorkerId, lease: int, input: Input)
    returns (did: bool, executed: bool)
    requires db.Valid()
    modifies db
    ensures db.Valid()
    ensures did <==> Candidates(old(db.View()), {}) != {}
    ensures !did ==> db.View() == old(db.View()) && !executed
    ensures did ==> exists id :: Processed(registry, old(db.View()), worker, lease, input, id, db.View(), executed)
  {
    ghost var v := db.View();
    var run := Claim(db, worker, lease, {});
    if run.None? {
      return false, false;
    }
    var (id, row) := run.value;
    executed := ProcessClaimed(db, registry, id, row, input);
    assert Processed(registry, v, worker, lease, input, id, db.View(), executed);
    did := true;
  }

  method UpdateTags(db: Database, id: RunId, tags: Json)
    requires db.Valid()
    modifies db
    ensures db.Valid() && db.View() == TagIn(old(db.View()), id, tags)
  {
    if id in db.runs {
      ghost var v := db.View();
      db.runs := db.runs[id := db.runs[id].(tags := tags)];
      Stored(v, db.View(), id, v.cells[id].(row := v.cells[id].row.(tags := tags)));
    }
  }

  /** What one undisturbed call comes to, column by column: an unknown agent fails, a gated run without an
      approved row waits with its attempt given back and its question asked, anything else runs once and
      ends as the executor reported. */
  lemma SettleOutcome(registry: Registry, v: Db, id: RunId, row: Row, input: Input)
    requires StillRunning(v, id) && v.cells[id].row == row
    ensures var (w, invoked) := Settle(registry, v, Claimed(id, row), input);
            var c := v.cells[id];
            var gated := row.agent in registry && registry[row.agent].requiresApproval
                         && forall i :: 0 <= i < |c.approvals| ==> c.approvals[i].status != Approved;
            && id in w.cells && w == v.(cells := v.cells[id := w.cells[id]])
            && (invoked <==> row.agent in registry && !gated)
            && (row.agent !in registry ==>
                  && w.cells[id].approvals == c.approvals
                  && w.cells[id].row == row.(status := Failed, result := None, costUsd := None,
                                             error := Some("unknown agent '" + row.agent + "'"),
                                             finishedAt := Some(v.clock), lockedBy := None, leaseExpiresAt := None))
            && (gated ==>
                  && w.cells[id].row == row.(status := AwaitingApproval, attempts := row.attempts - 1,
                                             lockedBy := None, leaseExpiresAt := None)
                  && w.cells[id].approvals
                     == c.approvals + [Approval("execute agent '" + row.agent + "'", row.params, Pending, v.clock,
                                                None, None, None)])
            && (invoked ==> w.cells[id].approvals == c.approvals && EndedAs(row, w.cells[id].row, input, v.clock))
  {
    SettleShape(registry, v, id, row, input);
    if row.agent in registry && !Allowed(registry, v, id, row.agent) {
      assert ParkIn(v, id, row).cells[id].approvals[|v.cells[id].approvals|].status == Pending;
    }
  }

  /** The row of a run that was executed: what the executor reported, and the tags given to it. */
  predicate EndedAs(before: Row, after: Row, input: Input, now: Time) {
    && (input.report.completed ==> after.status == Completed)
    && (!input.report.completed ==> after.status == Failed)
    && after == before.(status := after.status, result := input.report.result, error := input.report.error,
                        costUsd := input.report.costUsd, tags := input.tags,
                        sessionId := if input.report.sessionId.Some? then input.report.sessionId else before.sessionId,
                        finishedAt := Some(now), lockedBy := None, leaseExpiresAt := None)
  }
}
