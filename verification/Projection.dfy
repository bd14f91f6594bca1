/** The system seen from one run: whatever step is taken, the run undergoes at most one of eight
    operations. What holds of every operation holds of every step of every other party. */
module Projection {
  import opened Wrappers
  import opened Models
  import opened Queue
  import opened Approvals
  import opened Scheduler
  import opened Worker
  import opened System
  import opened Lifecycle
  import opened Safety

  datatype Op =
    | Keep
    | Take(worker: WorkerId, lease: int)
    | Beat(worker: WorkerId, lease: int)
    | End(report: Report)
    | Park(action: string, payload: Json)
    | Judge(approved: bool, via: string, note: Option<string>)
    | Expire
    | Say(kind: string, payload: Json)
    | Tag(tags: Json)

  function Apply(c: Cell, op: Op, now: Time): Cell {
    match op
    case Keep => c
    case Take(worker, lease) => if c.row.status == Queued then ClaimCell(c, worker, lease, now) else c
    case Beat(worker, lease) => HeartbeatCell(c, worker, lease, now)
    case End(report) => if c.row.status == Running then FinishCell(c, report, now) else c
    case Park(action, payload) => if c.row.status == Running then ParkCell(c, action, payload, now) else c
    case Judge(approved, via, note) =>
      if c.row.status == AwaitingApproval then DecideCell(c, approved, via, note, now) else c
    case Expire => ReapCell(c, now)
    case Say(kind, payload) => c.(events := c.events + [Message(kind, payload)])
    case Tag(tags) => c.(row := c.row.(tags := tags))
  }

  /** What a worker's step is for the run it is busy with. */
  function WorkOp(env: Env, v: Db, pc: Pc, input: Input): Op {
    match pc
    case Claimed(id, row) =>
      if row.agent !in env.registry then End(UnknownAgent(row.agent))
      else if Allowed(env.registry, v, id, row.agent) || !input.fused then Keep
      else Park(GateAction(row.agent), row.params)
    case Parking(id, row) => Park(GateAction(row.agent), row.params)
    case Executing(id) => End(input.report)
    case Tagging(id) => Tag(input.tags)
    case _ => Keep
  }

  ghost function OpOf(env: Env, s: Sys, step: Step, id: RunId): Op
    requires id in s.db.cells
  {
    match step
    case Claim(worker, lease, locked, picked) =>
      if PcOf(s, worker).Idle? && Oldest(s.db, locked, picked) && picked == id then Take(worker, lease) else Keep
    case Work(worker, input) =>
      var pc := PcOf(s, worker);
      if !pc.Idle? && pc.id == id then WorkOp(env, s.db, pc, input) else Keep
    case Emit(worker, kind, payload) =>
      var pc := PcOf(s, worker);
      if pc.Executing? && pc.id == id then Say(kind, payload) else Keep
    case Heartbeat(worker, other, lease) => if other == id then Beat(worker, lease) else Keep
    case Decide(other, approved, via, note) =>
      if other == id && HasPending(s.db.cells[id].approvals) then Judge(approved, via, note) else Keep
    case Reap(locked) => if id in locked then Keep else Expire
    case _ => Keep
  }

  lemma {:induction false} TickLeaves(env: Env, s: Sys, fires: seq<Fire>, id: RunId)
    requires id in s.db.cells && s.db.schedules.Keys <= s.firings.Keys
    requires forall i :: 0 <= i < |fires| ==> fires[i].schedule in s.db.schedules && fires[i].run != id
    ensures var t := TickSys(env, s, fires); id in t.db.cells && t.db.cells[id] == s.db.cells[id]
  {
    if fires != [] {
      TickLeaves(env, s, fires[..|fires| - 1], id);
    }
  }

  lemma WorkProjects(env: Env, s: Sys, worker: WorkerId, input: Input, id: RunId)
    requires id in s.db.cells
    ensures var t := Exec(env, s, Work(worker, input));
            && id in t.db.cells
            && t.db.cells[id] == Apply(s.db.cells[id], OpOf(env, s, Work(worker, input), id), s.db.clock)
  {
    var pc := PcOf(s, worker);
    match pc {
      case Idle =>
      case Claimed(x, row) =>
      case Parking(x, row) =>
      case Cleared(x) =>
      case Executing(x) =>
      case Tagging(x) =>
    }
  }

  /** A step of one transaction on the rows of runs. */
  predicate OnRows(step: Step) {
    step.Claim? || step.Heartbeat? || step.Decide? || step.Reap? || step.Emit? || step.Enqueue?
  }

  lemma RowsProject(env: Env, s: Sys, step: Step, id: RunId)
    requires id in s.db.cells && OnRows(step)
    ensures var t := Exec(env, s, step);
            id in t.db.cells && t.db.cells[id] == Apply(s.db.cells[id], OpOf(env, s, step, id), s.db.clock)
  {
  }

  /** No step of the system does anything else to a run that is there. */
  lemma Projects(env: Env, s: Sys, step: Step, id: RunId)
    requires id in s.db.cells
    ensures var t := Exec(env, s, step);
            id in t.db.cells && t.db.cells[id] == Apply(s.db.cells[id], OpOf(env, s, step, id), s.db.clock)
  {
    if OnRows(step) {
      RowsProject(env, s, step, id);
    } else if step.Work? {
      WorkProjects(env, s, step.worker, step.input, id);
    } else if step.Tick? {
      if CoversDue(s.db, step.locked, step.fires) && s.db.schedules.Keys <= s.firings.Keys {
        TickLeaves(env, s, step.fires, id);
      }
    }
  }

  // ---- what holds of every operation --------------------------------------

  lemma OpGrows(c: Cell, op: Op, now: Time)
    ensures Grows(c, Apply(c, op, now))
  {
  }

  /** After a terminal status only tags change, and messages of a worker that has not noticed. */
  lemma OpFreezes(c: Cell, op: Op, now: Time)
    requires c.row.status in TERMINAL
    ensures var d := Apply(c, op, now);
            d.row == c.row.(tags := d.row.tags) && d.approvals == c.approvals && Trail(d.events) == Trail(c.events)
  {
    if op.Say? {
      TrailSnoc(c.events, Message(op.kind, op.payload));
    }
  }

  /** Consent comes from a positive decision and from nothing else. */
  lemma OpConsents(c: Cell, op: Op, now: Time)
    requires CellInv(c) && !Consented(c.approvals) && Consented(Apply(c, op, now).approvals)
    ensures op.Judge? && op.approved && c.row.status == AwaitingApproval
  {
    match op {
      case Park(action, payload) => if c.row.status == Running { ParkKeeps(c, action, payload, now); }
      case Judge(approved, via, note) =>
        if c.row.status == AwaitingApproval { DecideKeeps(c, approved, via, note, now); }
      case _ =>
    }
  }

  /** The counts have moved by so much. */
  ghost predicate Counted(c: Cell, d: Cell, claims: nat, parks: nat) {
    Claims(d) == Claims(c) + claims && Parks(d) == Parks(c) + parks && Trail(c.events) <= Trail(d.events)
  }

  lemma TakeCounts(c: Cell, worker: WorkerId, lease: int, now: Time)
    requires CellInv(c) && c.row.status == Queued
    ensures Counted(c, ClaimCell(c, worker, lease, now), 1, 0)
  {
    MovedTrail(c, Running, (row: Row) => ClaimedRow(row, worker, lease, now), ByWorker(worker));
  }

  lemma EndCounts(c: Cell, report: Report, now: Time)
    requires CellInv(c) && c.row.status == Running
    ensures Counted(c, FinishCell(c, report, now), 0, 0)
  {
    MovedTrail(c, FinishStatus(report), (row: Row) => FinishedRow(row, report, now), Outcome(report.error));
  }

  lemma ParkCounts(c: Cell, action: string, payload: Json, now: Time)
    requires CellInv(c) && c.row.status == Running
    ensures Counted(c, ParkCell(c, action, payload, now), 0, 1)
  {
    var asked := c.(approvals := c.approvals + [NewApproval(action, payload, now)]);
    MovedTrail(asked, AwaitingApproval, ParkedRow, ConsentAsked(|c.approvals|, action));
  }

  lemma JudgeCounts(c: Cell, approved: bool, via: string, note: Option<string>, now: Time)
    requires CellInv(c) && c.row.status == AwaitingApproval
    ensures Counted(c, DecideCell(c, approved, via, note, now), 0, 0)
  {
    var decided := c.(approvals := DecideRows(c.approvals, approved, via, note, now));
    MovedTrail(decided, if approved then Queued else Rejected, (row: Row) => DecidedRow(row, approved, now),
               Decision(via, note));
  }

  lemma ExpireCounts(c: Cell, now: Time)
    requires CellInv(c)
    ensures Counted(c, ReapCell(c, now), 0, 0)
  {
    if LeaseOver(c.row, now) {
      if c.row.attempts < c.row.maxAttempts {
        MovedTrail(c, Queued, RequeuedRow, LeaseExpired);
      } else {
        MovedTrail(c, Failed, (row: Row) => ExhaustedRow(row, now), LeaseExpired);
      }
    }
  }

  /** How an operation moves the counts. */
  lemma OpCounts(c: Cell, op: Op, now: Time)
    requires CellInv(c)
    ensures Counted(c, Apply(c, op, now), if op.Take? && c.row.status == Queued then 1 else 0,
                    if op.Park? && c.row.status == Running then 1 else 0)
  {
    match op {
      case Take(worker, lease) => if c.row.status == Queued { TakeCounts(c, worker, lease, now); }
      case End(report) => if c.row.status == Running { EndCounts(c, report, now); }
      case Park(action, payload) => if c.row.status == Running { ParkCounts(c, action, payload, now); }
      case Judge(approved, via, note) =>
        if c.row.status == AwaitingApproval { JudgeCounts(c, approved, via, note, now); }
      case Expire => ExpireCounts(c, now);
      case Say(kind, payload) => TrailSnoc(c.events, Message(kind, payload));
      case _ =>
    }
  }
}
