/** What the invariant means for the people who run the service: over every sequence of steps of
    every party. */
module Guarantees {
  import opened Wrappers
  import opened Models
  import opened Queue
  import opened Approvals
  import opened Scheduler
  import opened Worker
  import opened System
  import opened Lifecycle
  import opened Safety
  import opened Projection

  // ---- attempts and executions --------------------------------------------

  /** Executions and parkings never exceed claims, attempts are claims minus parkings, and the
      executor is invoked at most as often as attempts allow. */
  lemma ExecutionsWithinBudget(env: Env, now: Time, steps: seq<Step>, id: RunId)
    requires id in Run(env, Start(now), steps).db.cells
    ensures var s := Run(env, Start(now), steps);
            var c := s.db.cells[id];
            && s.invocations[id] + Parks(c) <= Claims(c)
            && c.row.attempts == Claims(c) - Parks(c)
            && s.invocations[id] <= c.row.attempts <= Budget(c.row)
            && 0 <= c.row.attempts
            && (c.row.status in {Queued, AwaitingApproval} ==> c.row.attempts < Budget(c.row))
  {
    Reachable(env, now, steps);
    RunOkAt(env, Run(env, Start(now), steps), id);
  }

  ghost predicate AttemptsBounded(env: Env, now: Time, steps: seq<Step>, id: RunId, maxAttempts: int) {
    var cells := Run(env, Start(now), steps).db.cells;
    id in cells && cells[id].row.maxAttempts == maxAttempts ==> cells[id].row.attempts <= maxAttempts
  }

  /** A run enqueued and claimed: nobody looks at its max_attempts. */
  function ClaimedAnyway(agent: string, maxAttempts: int): seq<Step> {
    [Step.Enqueue(0, agent, Api, "{}", maxAttempts, "{}"), Step.Claim("A", 15, {}, 0)]
  }

  lemma ClaimedOnce(env: Env, now: Time, agent: string, maxAttempts: int)
    ensures var cells := Run(env, Start(now), ClaimedAnyway(agent, maxAttempts)).db.cells;
            0 in cells && cells[0].row.maxAttempts == maxAttempts && cells[0].row.attempts == 1
  {
    var steps := ClaimedAnyway(agent, maxAttempts);
    RunTwo(env, Start(now), steps[0], steps[1]);
    assert Candidates(Exec(env, Start(now), steps[0]).db, {}) == {0};
  }

  /** max_attempts bounds the attempts over every interleaving if and only if it is positive. */
  lemma AttemptsBoundedIff(env: Env, now: Time, agent: string, maxAttempts: int)
    ensures (forall steps, id :: AttemptsBounded(env, now, steps, id, maxAttempts)) <==> maxAttempts >= 1
  {
    if maxAttempts >= 1 {
      forall steps, id ensures AttemptsBounded(env, now, steps, id, maxAttempts) {
        if id in Run(env, Start(now), steps).db.cells {
          ExecutionsWithinBudget(env, now, steps, id);
        }
      }
    } else {
      ClaimedOnce(env, now, agent, maxAttempts);
      assert !AttemptsBounded(env, now, ClaimedAnyway(agent, maxAttempts), 0, maxAttempts);
    }
  }

  // ---- lifecycle length ---------------------------------------------------

  /** A run parks at most as often as it may be attempted, and its audit path is bounded by its
      attempt budget alone, however leases expire and stale workers act. */
  lemma LifecycleBound(env: Env, now: Time, steps: seq<Step>, id: RunId)
    requires id in Run(env, Start(now), steps).db.cells
    ensures var c := Run(env, Start(now), steps).db.cells[id];
            && Parks(c) <= Budget(c.row)
            && |Trail(c.events)| <= 1 + 2 * Budget(c.row) + 3 * Parks(c) <= 1 + 5 * Budget(c.row)
  {
    Reachable(env, now, steps);
    var s := Run(env, Start(now), steps);
    RunOkAt(env, s, id);
    if !Consented(s.db.cells[id].approvals) {
      UnapprovedParks(s.db.cells[id]);
    }
  }

  /** Every worker takes the gate check and the parking as one step. */
  ghost predicate Fused(steps: seq<Step>) {
    forall i :: 0 <= i < |steps| && steps[i].Work? ==> steps[i].input.fused
  }

  ghost predicate ParksOnce(s: Sys) {
    && (forall id :: id in s.db.cells ==> Parks(s.db.cells[id]) <= 1)
    && (forall w :: w in s.workers ==> !s.workers[w].Parking?)
  }

  lemma FusedStep(env: Env, s: Sys, step: Step, id: RunId)
    requires RunsOk(env, s) && ParksOnce(s) && (step.Work? ==> step.input.fused) && id in s.db.cells
    ensures id in Exec(env, s, step).db.cells && Parks(Exec(env, s, step).db.cells[id]) <= 1
  {
    Projects(env, s, step, id);
    RunOkAt(env, s, id);
    var c, op := s.db.cells[id], OpOf(env, s, step, id);
    OpCounts(c, op, s.db.clock);
    if op.Park? && c.row.status == Running {
      assert !Consented(c.approvals);
      UnapprovedParks(c);
    }
  }

  lemma FusedPcs(env: Env, s: Sys, step: Step)
    requires (forall w :: w in s.workers ==> !s.workers[w].Parking?) && (step.Work? ==> step.input.fused)
    ensures forall w :: w in Exec(env, s, step).workers ==> !Exec(env, s, step).workers[w].Parking?
  {
  }

  /** Runs come from enqueue and from the scheduler only. */
  lemma RunsComeFrom(env: Env, s: Sys, step: Step, id: RunId)
    requires RunsOk(env, s) && id !in s.db.cells && id in Exec(env, s, step).db.cells
    ensures step.Enqueue? || step.Tick?
  {
    match step {
      case Work(worker, input) => WorkAddsNone(env, s, worker, input);
      case _ =>
    }
  }

  lemma WorkAddsNone(env: Env, s: Sys, worker: WorkerId, input: Input)
    requires RunsOk(env, s)
    ensures Exec(env, s, Work(worker, input)).db.cells.Keys == s.db.cells.Keys
  {
    if !PcOf(s, worker).Idle? {
      PcOkAt(env, s, worker);
    }
  }

  lemma NewRunUnparked(env: Env, s: Sys, step: Step, id: RunId)
    requires RunsOk(env, s) && id !in s.db.cells && id in Exec(env, s, step).db.cells
    ensures Parks(Exec(env, s, step).db.cells[id]) == 0 && Claims(Exec(env, s, step).db.cells[id]) == 0
  {
    RunsComeFrom(env, s, step, id);
    if step.Enqueue? {
      NewCellInv(NewRow(step.agent, step.trigger, step.params, None, step.maxAttempts, step.tags, s.db.clock));
    } else {
      TickNew(env, s, step.fires, id);
    }
  }

  lemma {:induction false} TickNew(env: Env, s: Sys, fires: seq<Fire>, id: RunId)
    requires s.db.schedules.Keys <= s.firings.Keys && id !in s.db.cells
    requires forall i :: 0 <= i < |fires| ==> fires[i].schedule in s.db.schedules
    requires id in TickSys(env, s, fires).db.cells
    ensures var c := TickSys(env, s, fires).db.cells[id];
            && Parks(c) == 0 && Claims(c) == 0
            && c.row.createdAt == s.db.clock && c.row.availableAt == s.db.clock
            && exists row: Row :: row.status == Queued && c == NewCell(row)
  {
    if fires != [] {
      var f := fires[|fires| - 1];
      var before := TickSys(env, s, fires[..|fires| - 1]);
      if f.run == id {
        var row := ScheduledRow(before.db.schedules[f.schedule], f.schedule, before.db.clock);
        NewCellInv(row);
        assert TickSys(env, s, fires).db.cells[id] == NewCell(row);
      } else {
        TickNew(env, s, fires[..|fires| - 1], id);
      }
    }
  }

  lemma ParksOnceStep(env: Env, s: Sys, step: Step)
    requires RunsOk(env, s) && ParksOnce(s) && (step.Work? ==> step.input.fused)
    ensures ParksOnce(Exec(env, s, step))
  {
    forall id | id in Exec(env, s, step).db.cells
      ensures Parks(Exec(env, s, step).db.cells[id]) <= 1
    {
      if id in s.db.cells {
        FusedStep(env, s, step, id);
      } else {
        NewRunUnparked(env, s, step, id);
      }
    }
    FusedPcs(env, s, step);
  }

  lemma {:induction false} FusedParksOnce(env: Env, now: Time, steps: seq<Step>)
    requires Fused(steps)
    ensures ParksOnce(Run(env, Start(now), steps))
  {
    if steps != [] {
      FusedParksOnce(env, now, steps[..|steps| - 1]);
      Reachable(env, now, steps[..|steps| - 1]);
      ParksOnceStep(env, Run(env, Start(now), steps[..|steps| - 1]), steps[|steps| - 1]);
    }
  }

  /** With the gate as one step a run parks at most once, and the bound is four over twice the budget. */
  lemma FusedLifecycleBound(env: Env, now: Time, steps: seq<Step>, id: RunId)
    requires Fused(steps) && id in Run(env, Start(now), steps).db.cells
    ensures var c := Run(env, Start(now), steps).db.cells[id];
            Parks(c) <= 1 && |Trail(c.events)| <= 2 * Budget(c.row) + 4
  {
    FusedParksOnce(env, now, steps);
    LifecycleBound(env, now, steps, id);
  }

  // ---- the audit trail ----------------------------------------------------

  /** The recorded status changes are the run's true history: a legal path from enqueue to the
      current status, on which a terminal status is last, and hence unique. */
  lemma AuditTrailFaithful(env: Env, now: Time, steps: seq<Step>, id: RunId)
    requires id in Run(env, Start(now), steps).db.cells
    ensures var c := Run(env, Start(now), steps).db.cells[id];
            var t := Trail(c.events);
            && IsPath(t, c.row.status)
            && (forall i :: 0 < i < |t| ==> t[i].0 == Some(t[i - 1].1) && (t[i - 1].1, t[i].1) in ALLOWED_TRANSITIONS)
            && (forall i :: 0 <= i < |t| && t[i].1 in TERMINAL ==> i == |t| - 1)
  {
    Reachable(env, now, steps);
    var c := Run(env, Start(now), steps).db.cells[id];
    RunOkAt(env, Run(env, Start(now), steps), id);
    forall i | 0 <= i < |Trail(c.events)| {
      PathEdges(Trail(c.events), c.row.status, i);
    }
    forall i | 0 <= i < |Trail(c.events)| && Trail(c.events)[i].1 in TERMINAL {
      TerminalIsLast(Trail(c.events), c.row.status, i);
    }
  }

  /** From any state on, the events of a run are only appended to, its identity columns never
      change and its decided consent rows stay. */
  lemma {:induction false} HistoryStays(env: Env, s: Sys, steps: seq<Step>, id: RunId)
    requires id in s.db.cells
    ensures var t := Run(env, s, steps); id in t.db.cells && Grows(s.db.cells[id], t.db.cells[id])
  {
    if steps != [] {
      var before := Run(env, s, steps[..|steps| - 1]);
      HistoryStays(env, s, steps[..|steps| - 1], id);
      Projects(env, before, steps[|steps| - 1], id);
      OpGrows(before.db.cells[id], OpOf(env, before, steps[|steps| - 1], id), before.db.clock);
      GrowsThrough(s.db.cells[id], before.db.cells[id], Run(env, s, steps).db.cells[id]);
    }
  }

  lemma GrowsThrough(a: Cell, b: Cell, c: Cell)
    requires Grows(a, b) && Grows(b, c)
    ensures Grows(a, c)
  {
  }

  /** A run that has ended stays ended: no later step changes a column other than tags, a consent
      row or the audit path. */
  lemma {:induction false} TerminalIsFrozen(env: Env, s: Sys, steps: seq<Step>, id: RunId)
    requires id in s.db.cells && s.db.cells[id].row.status in TERMINAL
    ensures var t := Run(env, s, steps);
            && id in t.db.cells
            && t.db.cells[id].row == s.db.cells[id].row.(tags := t.db.cells[id].row.tags)
            && t.db.cells[id].approvals == s.db.cells[id].approvals
            && Trail(t.db.cells[id].events) == Trail(s.db.cells[id].events)
  {
    if steps != [] {
      var before := Run(env, s, steps[..|steps| - 1]);
      TerminalIsFrozen(env, s, steps[..|steps| - 1], id);
      Projects(env, before, steps[|steps| - 1], id);
      OpFreezes(before.db.cells[id], OpOf(env, before, steps[|steps| - 1], id), before.db.clock);
    }
  }

  // ---- consent ------------------------------------------------------------

  /** A gated agent's run whose executor was ever invoked has an approved row, now and for ever. */
  lemma ConsentBeforeExecution(env: Env, now: Time, steps: seq<Step>, later: seq<Step>, id: RunId)
    requires var s := Run(env, Start(now), steps);
             id in s.db.cells && Gated(env, s.db.cells[id].row.agent) && s.invocations[id] > 0
    ensures var t := Run(env, Start(now), steps + later);
            && Consented(Run(env, Start(now), steps).db.cells[id].approvals)
            && id in t.db.cells && Consented(t.db.cells[id].approvals)
  {
    var s := Run(env, Start(now), steps);
    Reachable(env, now, steps);
    RunOkAt(env, s, id);
    RunConcat(env, Start(now), steps, later);
    HistoryStays(env, s, later, id);
    ConsentStays(s.db.cells[id], Run(env, s, later).db.cells[id]);
  }

  /** Only a human's positive decision on this very run creates the approval. */
  lemma ConsentOnlyByDecision(env: Env, now: Time, steps: seq<Step>, step: Step, id: RunId)
    requires var s := Run(env, Start(now), steps);
             && id in s.db.cells && !Consented(s.db.cells[id].approvals)
             && id in Exec(env, s, step).db.cells && Consented(Exec(env, s, step).db.cells[id].approvals)
    ensures step.Decide? && step.id == id && step.approved
  {
    var s := Run(env, Start(now), steps);
    Reachable(env, now, steps);
    RunOkAt(env, s, id);
    Projects(env, s, step, id);
    OpConsents(s.db.cells[id], OpOf(env, s, step, id), s.db.clock);
    assert OpOf(env, s, step, id).Judge?;
  }

  /** Consent rows are conserved: one pending row exactly while the run waits, one approved row
      per grant, one declined row exactly when it was rejected, and one row per parking. */
  lemma ConsentConserved(env: Env, now: Time, steps: seq<Step>, id: RunId)
    requires id in Run(env, Start(now), steps).db.cells
    ensures var c := Run(env, Start(now), steps).db.cells[id];
            && CountRows(c.approvals, Pending) == (if c.row.status == AwaitingApproval then 1 else 0)
            && CountRows(c.approvals, Approved) == Grants(c)
            && CountRows(c.approvals, Declined) == (if c.row.status == Rejected then 1 else 0)
            && |c.approvals| == Parks(c)
  {
    Reachable(env, now, steps);
    RunOkAt(env, Run(env, Start(now), steps), id);
  }

  /** A decision is final: deciding again, either way, changes nothing. */
  lemma SecondDecisionIsNothing(v: Db, id: RunId, first: bool, second: bool, via: string, via': string,
                                note: Option<string>, note': Option<string>)
    ensures var w := DecideIn(v, id, first, via, note); DecideIn(w, id, second, via', note') == w
  {
    if id in v.cells {
      DecidedLeavesNone(v.cells[id].approvals, first, via, note, v.clock);
    }
  }

  lemma DecidedLeavesNone(rows: seq<Approval>, approved: bool, via: string, note: Option<string>, now: Time)
    ensures !HasPending(DecideRows(rows, approved, via, note, now))
  {
    CountDecided(rows, approved, via, note, now);
    CountPositive(DecideRows(rows, approved, via, note, now), Pending);
  }

  // ---- crash recovery -----------------------------------------------------

  /** A run is locked and leased exactly while it runs, and is dated finished exactly when it has
      ended; nothing is ever cancelled. */
  lemma LeaseColumns(env: Env, now: Time, steps: seq<Step>, id: RunId)
    requires id in Run(env, Start(now), steps).db.cells
    ensures LeaseOk(Run(env, Start(now), steps).db.cells[id])
  {
    Reachable(env, now, steps);
    RunOkAt(env, Run(env, Start(now), steps), id);
  }

  /** In every reachable state a reap moves exactly the running runs that are not locked and whose lease
      ends before now, back to the queue while attempts remain and to failed otherwise, each with one
      event; all others are as they were. A running run always has a lease, so once the clock has passed
      every lease and nothing is locked, nothing runs any more. */
  lemma ReapRecovers(env: Env, now: Time, steps: seq<Step>, locked: set<RunId>)
    ensures var v := Run(env, Start(now), steps).db;
            var w := Queue.Reap(v, locked);
            && w.cells.Keys == v.cells.Keys
            && (forall id :: id in v.cells ==>
                  var c, d := v.cells[id], w.cells[id];
                  && (c.row.status == Running ==> c.row.leaseExpiresAt.Some?)
                  && (if c.row.status == Running && c.row.leaseExpiresAt.value < v.clock && id !in locked then
                        && d.row.status == (if c.row.attempts < c.row.maxAttempts then Queued else Failed)
                        && d.row.attempts == c.row.attempts && d.row.lockedBy.None? && d.row.leaseExpiresAt.None?
                        && |Trail(d.events)| == |Trail(c.events)| + 1
                      else d == c))
            && (locked == {} && AllLeasesOver(v) ==> forall id :: id in w.cells ==> w.cells[id].row.status != Running)
  {
    var s := Run(env, Start(now), steps);
    Reachable(env, now, steps);
    ReapColumns(s.db, locked);
    forall id | id in s.db.cells
      ensures LeaseOk(s.db.cells[id])
      ensures id !in locked ==>
                var c := s.db.cells[id];
                |Trail(Queue.Reap(s.db, locked).cells[id].events)|
                == |Trail(c.events)| + if LeaseOver(c.row, s.db.clock) then 1 else 0
    {
      RunOkAt(env, s, id);
      ReapCounts(s.db.cells[id], s.db.clock);
    }
  }

  ghost predicate AllLeasesOver(v: Db) {
    forall id :: id in v.cells && v.cells[id].row.leaseExpiresAt.Some? ==>
      v.cells[id].row.leaseExpiresAt.value < v.clock
  }

  lemma ReapCounts(c: Cell, now: Time)
    requires CellInv(c)
    ensures |Trail(ReapCell(c, now).events)| == |Trail(c.events)| + if LeaseOver(c.row, now) then 1 else 0
  {
    if LeaseOver(c.row, now) {
      if c.row.attempts < c.row.maxAttempts {
        MovedTrail(c, Queued, RequeuedRow, LeaseExpired);
      } else {
        MovedTrail(c, Failed, (row: Row) => ExhaustedRow(row, now), LeaseExpired);
      }
    }
  }
}
