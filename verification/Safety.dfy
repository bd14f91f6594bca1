/** One invariant of the whole system, kept by every step: budgets, consent and audit of every
    run against what every worker is about to do. */
module Safety {
  import opened Wrappers
  import opened Models
  import opened Queue
  import opened Approvals
  import opened Scheduler
  import opened Worker
  import opened System
  import opened Lifecycle
  import opened Sets

  // ---- who is about to do what --------------------------------------------

  /** The worker's claim of the run has come neither to an execution nor to a parking. */
  predicate Holds(pc: Pc, id: RunId) {
    (pc.Claimed? || pc.Parking? || pc.Cleared?) && pc.id == id
  }

  predicate Asks(pc: Pc, id: RunId) {
    pc.Parking? && pc.id == id
  }

  ghost function Where(ws: map<WorkerId, Pc>, p: Pc -> bool): set<WorkerId> {
    set w | w in ws && p(ws[w])
  }

  ghost function Holders(ws: map<WorkerId, Pc>, id: RunId): set<WorkerId> {
    Where(ws, (pc: Pc) => Holds(pc, id))
  }

  ghost function Askers(ws: map<WorkerId, Pc>, id: RunId): set<WorkerId> {
    Where(ws, (pc: Pc) => Asks(pc, id))
  }

  lemma WhereMoves(ws: map<WorkerId, Pc>, w: WorkerId, pc: Pc, p: Pc -> bool)
    requires !p(Idle)
    ensures |Where(ws[w := pc], p)| == |Where(ws, p)| - (if p(At(ws, w)) then 1 else 0) + (if p(pc) then 1 else 0)
  {
    var rest := Where(ws, p) - {w};
    if p(At(ws, w)) {
      assert Where(ws, p) == rest + {w};
    } else {
      assert Where(ws, p) == rest;
    }
    if p(pc) {
      assert Where(ws[w := pc], p) == rest + {w};
    } else {
      assert Where(ws[w := pc], p) == rest;
    }
  }

  lemma HoldersMove(ws: map<WorkerId, Pc>, w: WorkerId, pc: Pc, id: RunId)
    ensures |Holders(ws[w := pc], id)|
         == |Holders(ws, id)| - (if Holds(At(ws, w), id) then 1 else 0) + (if Holds(pc, id) then 1 else 0)
  {
    WhereMoves(ws, w, pc, (pc: Pc) => Holds(pc, id));
  }

  lemma AskersMove(ws: map<WorkerId, Pc>, w: WorkerId, pc: Pc, id: RunId)
    ensures |Askers(ws[w := pc], id)|
         == |Askers(ws, id)| - (if Asks(At(ws, w), id) then 1 else 0) + (if Asks(pc, id) then 1 else 0)
  {
    WhereMoves(ws, w, pc, (pc: Pc) => Asks(pc, id));
  }

  // ---- the invariant ------------------------------------------------------

  predicate Gated(env: Env, agent: string) {
    agent in env.registry && env.registry[agent].requiresApproval
  }

  /** A run, the times its executor was invoked, and how many workers hold it or are about to
      park it. */
  ghost predicate RunOk(env: Env, c: Cell, invoked: nat, holders: nat, askers: nat) {
    && CellInv(c)
    && invoked + Parks(c) + holders <= Claims(c)
    && askers <= holders
    && (Consented(c.approvals) ==> Parks(c) + askers <= Budget(c.row))
    && (Gated(env, c.row.agent) ==> invoked > 0 ==> Consented(c.approvals))
    && (!Gated(env, c.row.agent) ==> Parks(c) == 0 && askers == 0)
  }

  /** What a worker's place says about the run it is busy with. */
  ghost predicate PcOk(env: Env, pc: Pc, c: Cell) {
    && (pc.Claimed? || pc.Parking? ==> pc.row.agent == c.row.agent)
    && (pc.Parking? ==> Gated(env, c.row.agent))
    && (pc.Cleared? || pc.Executing? || pc.Tagging? ==> Gated(env, c.row.agent) ==> Consented(c.approvals))
  }

  type RunProperty = (Cell, nat, nat, nat) -> bool
  type PcProperty = (Pc, Cell) -> bool

  ghost function RunOkIn(env: Env): RunProperty {
    (c: Cell, invoked: nat, holders: nat, askers: nat) => RunOk(env, c, invoked, holders, askers)
  }

  ghost function PcOkIn(env: Env): PcProperty {
    (pc: Pc, c: Cell) => PcOk(env, pc, c)
  }

  ghost predicate EachRun(ok: RunProperty, s: Sys) {
    forall id {:trigger Holders(s.workers, id)} :: id in s.db.cells ==>
      ok(s.db.cells[id], s.invocations[id], |Holders(s.workers, id)|, |Askers(s.workers, id)|)
  }

  ghost predicate EachPc(ok: PcProperty, s: Sys) {
    forall w :: w in s.workers && !s.workers[w].Idle? ==>
      s.workers[w].id in s.db.cells && ok(s.workers[w], s.db.cells[s.workers[w].id])
  }

  ghost predicate Known(s: Sys) {
    forall id :: id in s.invocations ==> id in s.db.cells
  }

  ghost predicate RunsOk(env: Env, s: Sys) {
    EachRun(RunOkIn(env), s) && EachPc(PcOkIn(env), s) && Known(s)
  }

  lemma RunOkAt(env: Env, s: Sys, id: RunId)
    requires RunsOk(env, s) && id in s.db.cells
    ensures RunOk(env, s.db.cells[id], s.invocations[id], |Holders(s.workers, id)|, |Askers(s.workers, id)|)
  {
    assert RunOkIn(env)(s.db.cells[id], s.invocations[id], |Holders(s.workers, id)|, |Askers(s.workers, id)|);
  }

  lemma PcOkAt(env: Env, s: Sys, w: WorkerId)
    requires RunsOk(env, s) && !At(s.workers, w).Idle?
    ensures s.workers[w].id in s.db.cells && PcOk(env, s.workers[w], s.db.cells[s.workers[w].id])
  {
    assert PcOkIn(env)(s.workers[w], s.db.cells[s.workers[w].id]);
  }

  // ---- what no step takes back --------------------------------------------

  /** A decided row stays as it was decided. */
  ghost predicate RowsGrow(a: seq<Approval>, b: seq<Approval>) {
    && |a| <= |b|
    && forall i :: 0 <= i < |a| && a[i].status != Pending ==> b[i] == a[i]
  }

  /** Columns that are never written again, and logs that only grow. */
  ghost predicate Grows(c: Cell, d: Cell) {
    && d.row.agent == c.row.agent && d.row.maxAttempts == c.row.maxAttempts && d.row.params == c.row.params
    && d.row.createdAt == c.row.createdAt && d.row.availableAt == c.row.availableAt
    && d.row.scheduleId == c.row.scheduleId && d.row.trigger == c.row.trigger
    && c.events <= d.events
    && RowsGrow(c.approvals, d.approvals)
  }

  lemma ConsentStays(c: Cell, d: Cell)
    requires Grows(c, d) && Consented(c.approvals)
    ensures Consented(d.approvals)
  {
    var i :| 0 <= i < |c.approvals| && c.approvals[i].status == Approved;
    assert d.approvals[i].status == Approved;
  }

  lemma PcStays(env: Env, pc: Pc, c: Cell, d: Cell)
    requires PcOk(env, pc, c) && Grows(c, d)
    ensures PcOk(env, pc, d)
  {
    if Consented(c.approvals) {
      ConsentStays(c, d);
    }
  }

  // ---- frames: what a step leaves alone keeps any property ----------------

  /** Whatever is true of a busy worker stays true when its run's cell goes from c to d. */
  ghost predicate Carries(ok: PcProperty, c: Cell, d: Cell) {
    forall pc :: ok(pc, c) ==> ok(pc, d)
  }

  lemma GrowsCarries(env: Env, c: Cell, d: Cell)
    requires Grows(c, d)
    ensures Carries(PcOkIn(env), c, d)
  {
    forall pc | PcOkIn(env)(pc, c)
      ensures PcOkIn(env)(pc, d)
    {
      PcStays(env, pc, c, d);
    }
  }

  /** A step of worker `w` about run `id`: it rewrites no other run and frees no other worker. */
  ghost predicate OneRun(s: Sys, t: Sys, id: RunId, w: WorkerId, pc: Pc, d: Cell, invoked: bool) {
    && id in s.db.cells && t.db.cells == s.db.cells[id := d]
    && t.workers == s.workers[w := pc]
    && t.invocations == (if invoked then s.invocations + multiset{id} else s.invocations)
    && (var was := At(s.workers, w); was.Idle? || was.id == id)
    && (pc.Idle? || pc.id == id)
  }

  lemma OneRunFrame(ok: RunProperty, pcOk: PcProperty, s: Sys, t: Sys, id: RunId, w: WorkerId, pc: Pc, d: Cell,
                    invoked: bool)
    requires EachRun(ok, s) && EachPc(pcOk, s) && Known(s) && OneRun(s, t, id, w, pc, d, invoked)
    requires ok(d, t.invocations[id], |Holders(t.workers, id)|, |Askers(t.workers, id)|)
    requires pc.Idle? || pcOk(pc, d)
    requires Carries(pcOk, s.db.cells[id], d)
    ensures EachRun(ok, t) && EachPc(pcOk, t) && Known(t)
  {
    forall other | other in t.db.cells && other != id
      ensures ok(t.db.cells[other], t.invocations[other], |Holders(t.workers, other)|, |Askers(t.workers, other)|)
    {
      HoldersMove(s.workers, w, pc, other);
      AskersMove(s.workers, w, pc, other);
    }
  }

  /** A step of no worker that rewrites runs one by one. */
  lemma RewriteFrame(ok: RunProperty, pcOk: PcProperty, s: Sys, t: Sys)
    requires EachRun(ok, s) && EachPc(pcOk, s) && Known(s)
    requires t.db.cells.Keys == s.db.cells.Keys && t.workers == s.workers && t.invocations == s.invocations
    requires forall id :: id in s.db.cells ==>
               t.db.cells[id] == s.db.cells[id] || Rewritten(ok, pcOk, s, id, t.db.cells[id])
    ensures EachRun(ok, t) && EachPc(pcOk, t) && Known(t)
  {
    forall id | id in t.db.cells
      ensures ok(t.db.cells[id], t.invocations[id], |Holders(t.workers, id)|, |Askers(t.workers, id)|)
    {
      assert t.db.cells[id] == s.db.cells[id] || Rewritten(ok, pcOk, s, id, t.db.cells[id]);
    }
    forall w | w in t.workers && !t.workers[w].Idle?
      ensures t.workers[w].id in t.db.cells && pcOk(t.workers[w], t.db.cells[t.workers[w].id])
    {
      var id := t.workers[w].id;
      assert t.db.cells[id] == s.db.cells[id] || Rewritten(ok, pcOk, s, id, t.db.cells[id]);
    }
  }

  ghost predicate Rewritten(ok: RunProperty, pcOk: PcProperty, s: Sys, id: RunId, d: Cell)
    requires id in s.db.cells
  {
    && ok(d, s.invocations[id], |Holders(s.workers, id)|, |Askers(s.workers, id)|)
    && Carries(pcOk, s.db.cells[id], d)
  }

  lemma OneCellFrame(ok: RunProperty, pcOk: PcProperty, s: Sys, t: Sys, id: RunId, d: Cell)
    requires EachRun(ok, s) && EachPc(pcOk, s) && Known(s)
    requires id in s.db.cells && Rewritten(ok, pcOk, s, id, d) && t == s.(db := s.db.(cells := s.db.cells[id := d]))
    ensures EachRun(ok, t) && EachPc(pcOk, t) && Known(t)
  {
    RewriteFrame(ok, pcOk, s, t);
  }

  /** The reaper rewrites every unlocked run at once. */
  lemma ReapFrame(ok: RunProperty, pcOk: PcProperty, s: Sys, t: Sys, locked: set<RunId>)
    requires EachRun(ok, s) && EachPc(pcOk, s) && Known(s) && t == s.(db := Queue.Reap(s.db, locked))
    requires forall id :: id in s.db.cells ==> Rewritten(ok, pcOk, s, id, ReapCell(s.db.cells[id], s.db.clock))
    ensures EachRun(ok, t) && EachPc(pcOk, t) && Known(t)
  {
    RewriteFrame(ok, pcOk, s, t);
  }

  /** A run that appears is held by nobody. */
  lemma NewRunFrame(ok: RunProperty, pcOk: PcProperty, s: Sys, t: Sys, id: RunId, d: Cell)
    requires EachRun(ok, s) && EachPc(pcOk, s) && Known(s) && id !in s.db.cells
    requires t.db.cells == s.db.cells[id := d] && t.workers == s.workers && t.invocations == s.invocations
    requires ok(d, 0, 0, 0)
    ensures EachRun(ok, t) && EachPc(pcOk, t) && Known(t)
  {
    assert Holders(s.workers, id) == {} && Askers(s.workers, id) == {};
  }

  // ---- putting a step together --------------------------------------------

  lemma OneRunKeeps(env: Env, s: Sys, t: Sys, id: RunId, w: WorkerId, pc: Pc, d: Cell, invoked: bool)
    requires RunsOk(env, s) && OneRun(s, t, id, w, pc, d, invoked) && Grows(s.db.cells[id], d)
    requires pc.Idle? || PcOk(env, pc, d)
    requires RunOk(env, d, t.invocations[id], |Holders(t.workers, id)|, |Askers(t.workers, id)|)
    ensures RunsOk(env, t)
  {
    GrowsCarries(env, s.db.cells[id], d);
    OneRunFrame(RunOkIn(env), PcOkIn(env), s, t, id, w, pc, d, invoked);
  }

  lemma OneCellKeeps(env: Env, s: Sys, t: Sys, id: RunId, d: Cell)
    requires RunsOk(env, s) && id in s.db.cells && t == s.(db := s.db.(cells := s.db.cells[id := d]))
    requires RunOk(env, d, s.invocations[id], |Holders(s.workers, id)|, |Askers(s.workers, id)|)
    requires Grows(s.db.cells[id], d)
    ensures RunsOk(env, t)
  {
    GrowsCarries(env, s.db.cells[id], d);
    OneCellFrame(RunOkIn(env), PcOkIn(env), s, t, id, d);
  }

  // ---- one lemma per kind of step -----------------------------------------

  lemma ClaimStep(env: Env, s: Sys, worker: WorkerId, lease: int, locked: set<RunId>, id: RunId)
    requires RunsOk(env, s)
    ensures RunsOk(env, Exec(env, s, Claim(worker, lease, locked, id)))
  {
    if PcOf(s, worker).Idle? && Oldest(s.db, locked, id) {
      var t := Exec(env, s, Claim(worker, lease, locked, id));
      var c := s.db.cells[id];
      var d := ClaimCell(c, worker, lease, s.db.clock);
      RunOkAt(env, s, id);
      ClaimKeeps(c, worker, lease, s.db.clock);
      HoldersMove(s.workers, worker, Claimed(id, d.row), id);
      AskersMove(s.workers, worker, Claimed(id, d.row), id);
      OneRunKeeps(env, s, t, id, worker, Claimed(id, d.row), d, false);
    }
  }

  /** Fewer workers about to act only make room; before the first approval asking is free. */
  lemma Relax(env: Env, c: Cell, invoked: nat, h: nat, a: nat, h': nat, a': nat)
    requires RunOk(env, c, invoked, h, a) && a' <= h' <= h
    requires a' <= a || (Gated(env, c.row.agent) && !Consented(c.approvals))
    ensures RunOk(env, c, invoked, h', a')
  {
  }

  lemma AskersHold(ws: map<WorkerId, Pc>, id: RunId)
    ensures |Askers(ws, id)| <= |Holders(ws, id)|
  {
    SubsetSize(Askers(ws, id), Holders(ws, id));
  }

  /** A worker moves on, or dies, without touching its run: the gate opens, or sends it to ask,
      or the worker is gone. */
  lemma QuietStep(env: Env, s: Sys, t: Sys, worker: WorkerId, id: RunId, pc: Pc)
    requires RunsOk(env, s) && id in s.db.cells
    requires var was := At(s.workers, worker); (was.Idle? || was.id == id) && (pc.Idle? || pc.id == id)
    requires t == s.(workers := s.workers[worker := pc])
    requires pc.Idle? || PcOk(env, pc, s.db.cells[id])
    requires Holds(At(s.workers, worker), id) || !Holds(pc, id)
    requires Asks(pc, id) ==> Gated(env, s.db.cells[id].row.agent) && !Consented(s.db.cells[id].approvals)
    ensures RunsOk(env, t)
  {
    RunOkAt(env, s, id);
    HoldersMove(s.workers, worker, pc, id);
    AskersMove(s.workers, worker, pc, id);
    AskersHold(t.workers, id);
    Relax(env, s.db.cells[id], s.invocations[id], |Holders(s.workers, id)|, |Askers(s.workers, id)|,
          |Holders(t.workers, id)|, |Askers(t.workers, id)|);
    assert s.db.cells[id := s.db.cells[id]] == s.db.cells;
    OneRunKeeps(env, s, t, id, worker, pc, s.db.cells[id], false);
  }

  lemma CrashStep(env: Env, s: Sys, worker: WorkerId)
    requires RunsOk(env, s)
    ensures RunsOk(env, Exec(env, s, Crash(worker)))
  {
    if At(s.workers, worker).Idle? {
      IdleCrash(env, s, Exec(env, s, Crash(worker)), worker);
    } else {
      BusyCrash(env, s, Exec(env, s, Crash(worker)), worker);
    }
  }

  lemma BusyCrash(env: Env, s: Sys, t: Sys, worker: WorkerId)
    requires RunsOk(env, s) && !At(s.workers, worker).Idle? && t == s.(workers := s.workers[worker := Idle])
    ensures RunsOk(env, t)
  {
    PcOkAt(env, s, worker);
    QuietStep(env, s, t, worker, At(s.workers, worker).id, Idle);
  }

  lemma IdleCrash(env: Env, s: Sys, t: Sys, worker: WorkerId)
    requires RunsOk(env, s) && At(s.workers, worker).Idle? && t == s.(workers := s.workers[worker := Idle])
    ensures RunsOk(env, t)
  {
    IdleFrame(RunOkIn(env), s, t, worker);
  }

  lemma IdleFrame(ok: RunProperty, s: Sys, t: Sys, worker: WorkerId)
    requires EachRun(ok, s) && At(s.workers, worker).Idle? && t == s.(workers := s.workers[worker := Idle])
    ensures EachRun(ok, t)
  {
    forall id | id in t.db.cells
      ensures ok(t.db.cells[id], t.invocations[id], |Holders(t.workers, id)|, |Askers(t.workers, id)|)
    {
      HoldersMove(s.workers, worker, Idle, id);
      AskersMove(s.workers, worker, Idle, id);
    }
  }

  lemma ParkRun(env: Env, c: Cell, invoked: nat, h: nat, a: nat, a': nat, row: Row, now: Time)
    requires RunOk(env, c, invoked, h, a) && c.row.status == Running && Gated(env, c.row.agent)
    requires a' < h && (a' < a || !Consented(c.approvals))
    ensures var d := ParkCell(c, GateAction(row.agent), row.params, now);
            RunOk(env, d, invoked, h - 1, a') && Grows(c, d)
  {
    ParkKeeps(c, GateAction(row.agent), row.params, now);
  }

  /** The run that is parked may by now be held by another worker: only its status is checked. */
  lemma ParkStep(env: Env, s: Sys, t: Sys, worker: WorkerId)
    requires RunsOk(env, s)
    requires var was := At(s.workers, worker);
             && (was.Parking?
                 || (was.Claimed? && Gated(env, was.row.agent) && !Consented(s.db.cells[was.id].approvals)))
             && t == s.(db := ParkIn(s.db, was.id, was.row), workers := s.workers[worker := Idle])
    ensures RunsOk(env, t)
  {
    var was := At(s.workers, worker);
    var id := was.id;
    if StillRunning(s.db, id) {
      var c := s.db.cells[id];
      var d := ParkCell(c, GateAction(was.row.agent), was.row.params, s.db.clock);
      RunOkAt(env, s, id);
      HoldersMove(s.workers, worker, Idle, id);
      AskersMove(s.workers, worker, Idle, id);
      AskersHold(t.workers, id);
      ParkRun(env, c, s.invocations[id], |Holders(s.workers, id)|, |Askers(s.workers, id)|, |Askers(t.workers, id)|,
              was.row, s.db.clock);
      OneRunKeeps(env, s, t, id, worker, Idle, d, false);
    } else {
      QuietStep(env, s, t, worker, id, Idle);
    }
  }

  lemma FinishRun(env: Env, c: Cell, invoked: nat, h: nat, a: nat, report: Report, now: Time)
    requires RunOk(env, c, invoked, h, a) && c.row.status == Running
    ensures var d := FinishCell(c, report, now);
            RunOk(env, d, invoked, h, a) && Grows(c, d)
  {
    FinishKeeps(c, report, now);
  }

  lemma FinishStep(env: Env, s: Sys, t: Sys, worker: WorkerId, report: Report, pc: Pc)
    requires RunsOk(env, s) && !At(s.workers, worker).Idle?
    requires var was := At(s.workers, worker);
             && (pc.Idle? || (was.Executing? && pc == Tagging(was.id)))
             && t == s.(db := FinishIn(s.db, was.id, report), workers := s.workers[worker := pc])
    ensures RunsOk(env, t)
  {
    PcOkAt(env, s, worker);
    var id := At(s.workers, worker).id;
    if StillRunning(s.db, id) {
      FinishRunning(env, s, t, worker, report, pc);
    } else {
      QuietStep(env, s, t, worker, id, pc);
    }
  }

  /** The run that is finished may by now be held by another worker: only its status is checked. */
  lemma FinishRunning(env: Env, s: Sys, t: Sys, worker: WorkerId, report: Report, pc: Pc)
    requires RunsOk(env, s) && !At(s.workers, worker).Idle? && StillRunning(s.db, At(s.workers, worker).id)
    requires var was := At(s.workers, worker);
             && (pc.Idle? || (was.Executing? && pc == Tagging(was.id)))
             && t == s.(db := FinishIn(s.db, was.id, report), workers := s.workers[worker := pc])
    ensures RunsOk(env, t)
  {
    var was := At(s.workers, worker);
    var id := was.id;
    var c := s.db.cells[id];
    RunOkAt(env, s, id);
    PcOkAt(env, s, worker);
    HoldersMove(s.workers, worker, pc, id);
    AskersMove(s.workers, worker, pc, id);
    AskersHold(t.workers, id);
    FinishRun(env, c, s.invocations[id], |Holders(s.workers, id)|, |Askers(s.workers, id)|, report, s.db.clock);
    var d := FinishCell(c, report, s.db.clock);
    Relax(env, d, s.invocations[id], |Holders(s.workers, id)|, |Askers(s.workers, id)|,
          |Holders(t.workers, id)|, |Askers(t.workers, id)|);
    if !pc.Idle? {
      PcStays(env, was, c, d);
    }
    OneRunKeeps(env, s, t, id, worker, pc, d, false);
  }

  lemma InvokeRun(env: Env, c: Cell, invoked: nat, h: nat, a: nat)
    requires RunOk(env, c, invoked, h, a) && a < h
    requires Gated(env, c.row.agent) ==> Consented(c.approvals)
    ensures RunOk(env, c, invoked + 1, h - 1, a)
  {
  }

  lemma InvokeStep(env: Env, s: Sys, t: Sys, worker: WorkerId)
    requires RunsOk(env, s) && At(s.workers, worker).Cleared?
    requires var id := At(s.workers, worker).id;
             t == s.(workers := s.workers[worker := Executing(id)], invocations := s.invocations + multiset{id})
    ensures RunsOk(env, t)
  {
    var id := At(s.workers, worker).id;
    PcOkAt(env, s, worker);
    RunOkAt(env, s, id);
    HoldersMove(s.workers, worker, Executing(id), id);
    AskersMove(s.workers, worker, Executing(id), id);
    AskersHold(t.workers, id);
    InvokeRun(env, s.db.cells[id], s.invocations[id], |Holders(s.workers, id)|, |Askers(s.workers, id)|);
    assert s.db.cells[id := s.db.cells[id]] == s.db.cells;
    OneRunKeeps(env, s, t, id, worker, Executing(id), s.db.cells[id], true);
  }

  lemma TagRun(env: Env, c: Cell, invoked: nat, h: nat, a: nat, tags: Json)
    requires RunOk(env, c, invoked, h, a)
    ensures var d := c.(row := c.row.(tags := tags));
            RunOk(env, d, invoked, h, a) && Grows(c, d)
  {
  }

  lemma TagStep(env: Env, s: Sys, t: Sys, worker: WorkerId, tags: Json)
    requires RunsOk(env, s) && At(s.workers, worker).Tagging?
    requires t == s.(db := TagIn(s.db, At(s.workers, worker).id, tags), workers := s.workers[worker := Idle])
    ensures RunsOk(env, t)
  {
    var id := At(s.workers, worker).id;
    PcOkAt(env, s, worker);
    var c := s.db.cells[id];
    var d := c.(row := c.row.(tags := tags));
    RunOkAt(env, s, id);
    HoldersMove(s.workers, worker, Idle, id);
    AskersMove(s.workers, worker, Idle, id);
    TagRun(env, c, s.invocations[id], |Holders(s.workers, id)|, |Askers(s.workers, id)|, tags);
    OneRunKeeps(env, s, t, id, worker, Idle, d, false);
  }

  lemma GateStep(env: Env, s: Sys, t: Sys, worker: WorkerId, input: Input)
    requires RunsOk(env, s) && At(s.workers, worker).Claimed?
    requires var (w, next) := Advance(env.registry, s.db, At(s.workers, worker), input);
             t == s.(db := w, workers := s.workers[worker := next])
    ensures RunsOk(env, t)
  {
    var Claimed(id, row) := At(s.workers, worker);
    PcOkAt(env, s, worker);
    if row.agent !in env.registry {
      FinishStep(env, s, t, worker, UnknownAgent(row.agent), Idle);
    } else if Allowed(env.registry, s.db, id, row.agent) {
      QuietStep(env, s, t, worker, id, Cleared(id));
    } else if input.fused {
      ParkStep(env, s, t, worker);
    } else {
      QuietStep(env, s, t, worker, id, Parking(id, row));
    }
  }

  lemma WorkStep(env: Env, s: Sys, worker: WorkerId, input: Input)
    requires RunsOk(env, s)
    ensures RunsOk(env, Exec(env, s, Work(worker, input)))
  {
    var t := Exec(env, s, Work(worker, input));
    var pc := At(s.workers, worker);
    if !pc.Idle? {
      PcOkAt(env, s, worker);
    }
    match pc {
      case Idle =>
      case Claimed(id, row) => GateStep(env, s, t, worker, input);
      case Parking(id, row) => ParkStep(env, s, t, worker);
      case Cleared(id) => InvokeStep(env, s, t, worker);
      case Executing(id) =>
        FinishStep(env, s, t, worker, input.report, if StillRunning(s.db, id) then Tagging(id) else Idle);
      case Tagging(id) => TagStep(env, s, t, worker, input.tags);
    }
  }

  // ---- steps of the others ------------------------------------------------

  lemma EmitStep(env: Env, s: Sys, worker: WorkerId, kind: string, payload: Json)
    requires RunsOk(env, s)
    ensures RunsOk(env, Exec(env, s, Emit(worker, kind, payload)))
  {
    var pc := PcOf(s, worker);
    if pc.Executing? && pc.id in s.db.cells {
      var c := s.db.cells[pc.id];
      RunOkAt(env, s, pc.id);
      MessageKeeps(c, kind, payload);
      OneCellKeeps(env, s, Exec(env, s, Emit(worker, kind, payload)), pc.id,
                   c.(events := c.events + [Message(kind, payload)]));
    }
  }

  lemma HeartbeatStep(env: Env, s: Sys, worker: WorkerId, id: RunId, lease: int)
    requires RunsOk(env, s)
    ensures RunsOk(env, Exec(env, s, Heartbeat(worker, id, lease)))
  {
    if id in s.db.cells {
      var c := s.db.cells[id];
      RunOkAt(env, s, id);
      HeartbeatKeeps(c, worker, lease, s.db.clock);
      OneCellKeeps(env, s, Exec(env, s, Heartbeat(worker, id, lease)), id, HeartbeatCell(c, worker, lease, s.db.clock));
    }
  }

  /** The first approval finds the run parked once, and every claim so far within its budget. */
  lemma DecideRun(env: Env, c: Cell, invoked: nat, h: nat, a: nat, approved: bool, via: string, note: Option<string>,
                  now: Time)
    requires RunOk(env, c, invoked, h, a) && c.row.status == AwaitingApproval
    ensures var d := DecideCell(c, approved, via, note, now);
            RunOk(env, d, invoked, h, a) && Grows(c, d)
  {
    DecideKeeps(c, approved, via, note, now);
    if !Consented(c.approvals) {
      UnapprovedParks(c);
    }
  }

  lemma DecideStep(env: Env, s: Sys, id: RunId, approved: bool, via: string, note: Option<string>)
    requires RunsOk(env, s)
    ensures RunsOk(env, Exec(env, s, Decide(id, approved, via, note)))
  {
    var v := s.db;
    if id in v.cells && HasPending(v.cells[id].approvals) && v.cells[id].row.status == AwaitingApproval {
      var c := v.cells[id];
      RunOkAt(env, s, id);
      DecideRun(env, c, s.invocations[id], |Holders(s.workers, id)|, |Askers(s.workers, id)|, approved, via, note,
                v.clock);
      OneCellKeeps(env, s, Exec(env, s, Decide(id, approved, via, note)), id,
                   DecideCell(c, approved, via, note, v.clock));
    }
  }

  lemma ReapRun(env: Env, c: Cell, invoked: nat, h: nat, a: nat, now: Time)
    requires RunOk(env, c, invoked, h, a)
    ensures RunOk(env, ReapCell(c, now), invoked, h, a) && Grows(c, ReapCell(c, now))
  {
    ReapKeeps(c, now);
  }

  lemma ReapAt(env: Env, s: Sys, id: RunId)
    requires RunsOk(env, s) && id in s.db.cells
    ensures Rewritten(RunOkIn(env), PcOkIn(env), s, id, ReapCell(s.db.cells[id], s.db.clock))
  {
    RunOkAt(env, s, id);
    ReapRun(env, s.db.cells[id], s.invocations[id], |Holders(s.workers, id)|, |Askers(s.workers, id)|, s.db.clock);
    GrowsCarries(env, s.db.cells[id], ReapCell(s.db.cells[id], s.db.clock));
  }

  lemma ReapStep(env: Env, s: Sys, locked: set<RunId>)
    requires RunsOk(env, s)
    ensures RunsOk(env, Exec(env, s, Step.Reap(locked)))
  {
    forall id | id in s.db.cells {
      ReapAt(env, s, id);
    }
    ReapFrame(RunOkIn(env), PcOkIn(env), s, Exec(env, s, Step.Reap(locked)), locked);
  }

  lemma NewRunKeeps(env: Env, s: Sys, t: Sys, id: RunId, row: Row)
    requires RunsOk(env, s) && id !in s.db.cells
    requires row.status == Queued && row.attempts == 0
    requires row.lockedBy.None? && row.leaseExpiresAt.None? && row.finishedAt.None?
    requires t.db.cells == s.db.cells[id := NewCell(row)] && t.workers == s.workers && t.invocations == s.invocations
    ensures RunsOk(env, t)
  {
    NewCellInv(row);
    NewRunFrame(RunOkIn(env), PcOkIn(env), s, t, id, NewCell(row));
  }

  lemma SameRunsKeeps(env: Env, s: Sys, t: Sys)
    requires RunsOk(env, s)
    requires t.db.cells == s.db.cells && t.workers == s.workers && t.invocations == s.invocations
    ensures RunsOk(env, t)
  {
    RewriteFrame(RunOkIn(env), PcOkIn(env), s, t);
  }

  lemma FireKeeps(env: Env, s: Sys, f: Fire)
    requires RunsOk(env, s) && f.schedule in s.db.schedules && f.schedule in s.firings && f.run !in s.db.cells
    ensures RunsOk(env, FireSys(env, s, f))
  {
    var sch := s.db.schedules[f.schedule];
    NewRunKeeps(env, s, FireSys(env, s, f), f.run, ScheduledRow(sch, f.schedule, s.db.clock));
  }

  /** The runs a tick adds are those whose keys were generated for it. */
  lemma {:induction false} TickAdds(env: Env, s: Sys, fires: seq<Fire>, id: RunId)
    requires s.db.schedules.Keys <= s.firings.Keys
    requires forall i :: 0 <= i < |fires| ==> fires[i].schedule in s.db.schedules && fires[i].run != id
    ensures id in TickSys(env, s, fires).db.cells ==> id in s.db.cells
  {
    if fires != [] {
      TickAdds(env, s, fires[..|fires| - 1], id);
    }
  }

  lemma {:induction false} TickKeeps(env: Env, s: Sys, fires: seq<Fire>)
    requires RunsOk(env, s) && s.db.schedules.Keys <= s.firings.Keys && Fireable(s.db, fires)
    ensures RunsOk(env, TickSys(env, s, fires))
  {
    if fires != [] {
      var init, last := fires[..|fires| - 1], fires[|fires| - 1];
      FireableInit(s.db, fires);
      TickKeeps(env, s, init);
      TickAdds(env, s, init, last.run);
      FireKeeps(env, TickSys(env, s, init), last);
    }
  }

  lemma TickStep(env: Env, s: Sys, locked: set<ScheduleId>, fires: seq<Fire>)
    requires RunsOk(env, s)
    ensures RunsOk(env, Exec(env, s, Step.Tick(locked, fires)))
  {
    if CoversDue(s.db, locked, fires) && s.db.schedules.Keys <= s.firings.Keys {
      TickKeeps(env, s, fires);
    }
  }

  lemma EnqueueStep(env: Env, s: Sys, id: RunId, agent: string, trigger: Trigger, params: Json, maxAttempts: int,
                    tags: Json)
    requires RunsOk(env, s)
    ensures RunsOk(env, Exec(env, s, Step.Enqueue(id, agent, trigger, params, maxAttempts, tags)))
  {
    if id !in s.db.cells {
      NewRunKeeps(env, s, Exec(env, s, Step.Enqueue(id, agent, trigger, params, maxAttempts, tags)), id,
                  NewRow(agent, trigger, params, None, maxAttempts, tags, s.db.clock));
    }
  }

  predicate TouchesNoRun(step: Step) {
    step.Upsert? || step.Sync? || step.Toggle? || step.Elapse?
  }

  lemma NoRunStep(env: Env, s: Sys, step: Step)
    requires TouchesNoRun(step)
    ensures var t := Exec(env, s, step);
            t.db.cells == s.db.cells && t.workers == s.workers && t.invocations == s.invocations
  {
  }

  lemma RunsOkStep(env: Env, s: Sys, step: Step)
    requires RunsOk(env, s)
    ensures RunsOk(env, Exec(env, s, step))
  {
    if TouchesNoRun(step) {
      NoRunStep(env, s, step);
      SameRunsKeeps(env, s, Exec(env, s, step));
      return;
    }
    match step {
      case Enqueue(id, agent, trigger, params, maxAttempts, tags) =>
        EnqueueStep(env, s, id, agent, trigger, params, maxAttempts, tags);
      case Claim(worker, lease, locked, id) => ClaimStep(env, s, worker, lease, locked, id);
      case Work(worker, input) => WorkStep(env, s, worker, input);
      case Emit(worker, kind, payload) => EmitStep(env, s, worker, kind, payload);
      case Heartbeat(worker, id, lease) => HeartbeatStep(env, s, worker, id, lease);
      case Crash(worker) => CrashStep(env, s, worker);
      case Decide(id, approved, via, note) => DecideStep(env, s, id, approved, via, note);
      case Reap(locked) => ReapStep(env, s, locked);
      case Tick(locked, fires) => TickStep(env, s, locked, fires);
      case _ =>
    }
  }

  /** In every reachable state, whatever was interleaved. */
  lemma {:induction false} Reachable(env: Env, now: Time, steps: seq<Step>)
    ensures RunsOk(env, Run(env, Start(now), steps))
  {
    if steps != [] {
      Reachable(env, now, steps[..|steps| - 1]);
      RunsOkStep(env, Run(env, Start(now), steps[..|steps| - 1]), steps[|steps| - 1]);
    }
  }
}
