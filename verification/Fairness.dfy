/** How long a queued run can be kept waiting when claims are serial. */
module Fairness {
  import opened Wrappers
  import opened Models
  import opened Queue
  import opened Approvals
  import opened Scheduler
  import opened Worker
  import opened System
  import opened Lifecycle
  import opened Safety
  import opened Projection
  import opened Guarantees

  /** How often a run can be claimed at all: each claim is an attempt or was given back by a parking.
      Without a gate nothing parks; behind one it parks at most as often as its budget, and at most once
      if every worker takes gate check and parking as one step. */
  ghost function Cap(env: Env, fused: bool, row: Row): int {
    if !Gated(env, row.agent) then Budget(row)
    else if fused then Budget(row) + 1
    else 2 * Budget(row)
  }

  /** Claims this run can still undergo: none once it is over. */
  ghost function Credit(env: Env, fused: bool, c: Cell): int {
    if c.row.status in TERMINAL then 0 else Cap(env, fused, c.row) - Claims(c)
  }

  /** The invariant that credit rests on; `fused` says which gate is meant. */
  ghost predicate Good(env: Env, fused: bool, s: Sys) {
    RunsOk(env, s) && (fused ==> ParksOnce(s))
  }

  ghost predicate Allowed(fused: bool, step: Step) {
    fused && step.Work? ==> step.input.fused
  }

  lemma GoodStep(env: Env, fused: bool, s: Sys, step: Step)
    requires Good(env, fused, s) && Allowed(fused, step)
    ensures Good(env, fused, Exec(env, s, step))
  {
    RunsOkStep(env, s, step);
    if fused {
      ParksOnceStep(env, s, step);
    }
  }

  ghost function CreditSum(env: Env, fused: bool, cells: map<RunId, Cell>, ids: set<RunId>): int
    requires ids <= cells.Keys
  {
    if ids == {} then 0
    else
      var id :| id in ids;
      Credit(env, fused, cells[id]) + CreditSum(env, fused, cells, ids - {id})
  }

  lemma {:induction false} CreditSumPick(env: Env, fused: bool, cells: map<RunId, Cell>, ids: set<RunId>, id: RunId)
    requires ids <= cells.Keys && id in ids
    ensures CreditSum(env, fused, cells, ids)
         == Credit(env, fused, cells[id]) + CreditSum(env, fused, cells, ids - {id})
    decreases |ids|
  {
    var x :| x in ids && CreditSum(env, fused, cells, ids)
                         == Credit(env, fused, cells[x]) + CreditSum(env, fused, cells, ids - {x});
    if x != id {
      CreditSumPick(env, fused, cells, ids - {x}, id);
      CreditSumPick(env, fused, cells, ids - {id}, x);
      assert ids - {x} - {id} == ids - {id} - {x};
    }
  }

  lemma {:induction false} CreditSumFalls(env: Env, fused: bool, a: map<RunId, Cell>, b: map<RunId, Cell>,
                                             ids: set<RunId>)
    requires ids <= a.Keys && ids <= b.Keys
    requires forall id :: id in ids ==> Credit(env, fused, b[id]) <= Credit(env, fused, a[id])
    ensures CreditSum(env, fused, b, ids) <= CreditSum(env, fused, a, ids)
    decreases |ids|
  {
    if ids != {} {
      var id :| id in ids;
      CreditSumPick(env, fused, a, ids, id);
      CreditSumPick(env, fused, b, ids, id);
      CreditSumFalls(env, fused, a, b, ids - {id});
    }
  }

  /** The runs that FIFO order lets pass run q: created no later. */
  ghost function Ahead(v: Db, q: RunId): set<RunId>
    requires q in v.cells
  {
    set id | id in v.cells && id != q && v.cells[id].row.createdAt <= v.cells[q].row.createdAt
  }

  /** No transaction holds a queued row locked while another one claims. */
  ghost predicate Serial(steps: seq<Step>) {
    forall i :: 0 <= i < |steps| && steps[i].Claim? ==> steps[i].locked == {}
  }

  ghost predicate Claiming(s: Sys, step: Step) {
    step.Claim? && PcOf(s, step.worker).Idle? && Oldest(s.db, step.locked, step.id)
  }

  /** The runs claimed by some steps, in order. */
  ghost function Claimed(env: Env, s: Sys, steps: seq<Step>): seq<RunId> {
    if steps == [] then []
    else
      var init, last := steps[..|steps| - 1], steps[|steps| - 1];
      Claimed(env, s, init) + (if Claiming(Run(env, s, init), last) then [last.id] else [])
  }

  lemma CreditNotNegative(env: Env, fused: bool, s: Sys, id: RunId)
    requires Good(env, fused, s) && id in s.db.cells
    ensures Credit(env, fused, s.db.cells[id]) >= 0
  {
    RunOkAt(env, s, id);
    if !Consented(s.db.cells[id].approvals) {
      UnapprovedParks(s.db.cells[id]);
    }
  }

  lemma {:induction false} CreditSumNotNegative(env: Env, fused: bool, s: Sys, ids: set<RunId>)
    requires ids <= s.db.cells.Keys
    requires forall id <- ids :: Credit(env, fused, s.db.cells[id]) >= 0
    ensures CreditSum(env, fused, s.db.cells, ids) >= 0
    decreases |ids|
  {
    if ids != {} {
      var id :| id in ids;
      CreditSumPick(env, fused, s.db.cells, ids, id);
      CreditSumNotNegative(env, fused, s, ids - {id});
    }
  }

  /** What a step does to one run, for this argument: `taken` says whether it claims the run. */
  ghost predicate Stepped(c: Cell, d: Cell, taken: bool) {
    && Grows(c, d)
    && Claims(d) == Claims(c) + (if taken then 1 else 0)
    && (c.row.status == Queued && !taken ==> d.row.status == Queued)
    && (c.row.status in TERMINAL ==> d.row.status in TERMINAL)
  }

  lemma OpStepped(c: Cell, op: Op, now: Time)
    requires CellInv(c) && (op.Take? ==> c.row.status == Queued)
    ensures Stepped(c, Apply(c, op, now), op.Take?)
  {
    OpCounts(c, op, now);
    OpGrows(c, op, now);
    if c.row.status == Queued && !op.Take? {
      OpQueued(c, op, now);
    }
    if c.row.status in TERMINAL {
      OpFreezes(c, op, now);
    }
  }

  /** Only a claim takes a run out of the queue. */
  lemma OpQueued(c: Cell, op: Op, now: Time)
    requires c.row.status == Queued && !op.Take?
    ensures Apply(c, op, now).row.status == Queued
  {
  }

  lemma TakenWhenClaimed(env: Env, s: Sys, step: Step, id: RunId)
    requires id in s.db.cells
    ensures OpOf(env, s, step, id).Take? <==> Claiming(s, step) && step.id == id
    ensures OpOf(env, s, step, id).Take? ==> s.db.cells[id].row.status == Queued
  {
    if step.Work? {
      assert !OpOf(env, s, step, id).Take?;
    }
  }

  lemma StepOnRun(env: Env, s: Sys, step: Step, id: RunId)
    requires RunsOk(env, s) && id in s.db.cells
    ensures var t := Exec(env, s, step);
            id in t.db.cells && Stepped(s.db.cells[id], t.db.cells[id], Claiming(s, step) && step.id == id)
  {
    RunOkAt(env, s, id);
    Projects(env, s, step, id);
    TakenWhenClaimed(env, s, step, id);
    OpStepped(s.db.cells[id], OpOf(env, s, step, id), s.db.clock);
  }

  lemma NewRunsAreYounger(env: Env, s: Sys, step: Step, id: RunId)
    requires RunsOk(env, s) && id !in s.db.cells && id in Exec(env, s, step).db.cells
    ensures Exec(env, s, step).db.cells[id].row.createdAt == s.db.clock
  {
    RunsComeFrom(env, s, step, id);
    if step.Tick? {
      TickNew(env, s, step.fires, id);
    }
  }

  lemma ClockMoves(env: Env, s: Sys, step: Step)
    ensures Exec(env, s, step).db.clock >= s.db.clock
  {
  }

  lemma BirthAfterStep(env: Env, s: Sys, step: Step, id: RunId)
    requires RunsOk(env, s)
    ensures var t := Exec(env, s, step);
            && (id in s.db.cells ==> id in t.db.cells && t.db.cells[id].row.createdAt == s.db.cells[id].row.createdAt)
            && (id !in s.db.cells && id in t.db.cells ==> t.db.cells[id].row.createdAt == s.db.clock)
  {
    if id in s.db.cells {
      StepOnRun(env, s, step, id);
    } else if id in Exec(env, s, step).db.cells {
      NewRunsAreYounger(env, s, step, id);
    }
  }

  /** Nobody joins the runs ahead of q once the clock is past its creation. */
  lemma AheadIsFixed(env: Env, s: Sys, t: Sys, step: Step, q: RunId)
    requires RunsOk(env, s) && q in s.db.cells && s.db.cells[q].row.createdAt < s.db.clock
    requires t == Exec(env, s, step)
    ensures q in t.db.cells && Ahead(t.db, q) == Ahead(s.db, q)
  {
    BirthAfterStep(env, s, step, q);
    forall id
      ensures id in Ahead(t.db, q) <==> id in Ahead(s.db, q)
    {
      BirthAfterStep(env, s, step, id);
    }
  }

  lemma CreditFalls(env: Env, fused: bool, c: Cell, d: Cell, taken: bool)
    requires Stepped(c, d, taken) && Credit(env, fused, c) >= 0 && (taken ==> c.row.status == Queued)
    requires taken ==> d.row.status == Running
    ensures Credit(env, fused, d) <= Credit(env, fused, c) - if taken then 1 else 0
  {
  }

  lemma CreditAfterStep(env: Env, fused: bool, s: Sys, t: Sys, step: Step, id: RunId)
    requires Good(env, fused, s) && id in s.db.cells && t == Exec(env, s, step)
    ensures id in t.db.cells
    ensures Credit(env, fused, t.db.cells[id])
         <= Credit(env, fused, s.db.cells[id]) - if Claiming(s, step) && step.id == id then 1 else 0
  {
    StepOnRun(env, s, step, id);
    CreditNotNegative(env, fused, s, id);
    TakenWhenClaimed(env, s, step, id);
    ClaimRuns(env, s, step);
    CreditFalls(env, fused, s.db.cells[id], t.db.cells[id], Claiming(s, step) && step.id == id);
  }

  lemma ClaimRuns(env: Env, s: Sys, step: Step)
    ensures Claiming(s, step) ==>
              var cells := Exec(env, s, step).db.cells; step.id in cells && cells[step.id].row.status == Running
  {
  }

  /** A serial claim that is not of q is of a run ahead of q. */
  lemma ClaimsAreAhead(s: Sys, step: Step, q: RunId)
    requires q in s.db.cells && s.db.cells[q].row.status == Queued && s.db.cells[q].row.availableAt <= s.db.clock
    requires Claiming(s, step) && step.locked == {} && step.id != q
    ensures step.id in Ahead(s.db, q)
  {
    assert q in Candidates(s.db, {});
  }

  /** A step lowers the credit of the runs ahead by one at least if it claims one of them. */
  lemma PassingCosts(env: Env, fused: bool, s: Sys, t: Sys, step: Step, ahead: set<RunId>)
    requires t == Exec(env, s, step) && Good(env, fused, s) && ahead <= s.db.cells.Keys
    requires Claiming(s, step) ==> step.id in ahead
    ensures ahead <= t.db.cells.Keys
    ensures CreditSum(env, fused, t.db.cells, ahead)
         <= CreditSum(env, fused, s.db.cells, ahead) - (if Claiming(s, step) then 1 else 0)
  {
    forall id | id in ahead
      ensures id in t.db.cells
      ensures Credit(env, fused, t.db.cells[id])
           <= Credit(env, fused, s.db.cells[id]) - if Claiming(s, step) && step.id == id then 1 else 0
    {
      CreditAfterStep(env, fused, s, t, step, id);
    }
    if Claiming(s, step) {
      CreditSumPick(env, fused, s.db.cells, ahead, step.id);
      CreditSumPick(env, fused, t.db.cells, ahead, step.id);
      CreditSumFalls(env, fused, s.db.cells, t.db.cells, ahead - {step.id});
    } else {
      CreditSumFalls(env, fused, s.db.cells, t.db.cells, ahead);
    }
  }

  /** A run is available from the moment it is created. */
  lemma {:induction false} AvailableOnceCreated(env: Env, now: Time, steps: seq<Step>, id: RunId)
    requires id in Run(env, Start(now), steps).db.cells
    ensures var s := Run(env, Start(now), steps);
            s.db.cells[id].row.availableAt == s.db.cells[id].row.createdAt <= s.db.clock
  {
    if steps != [] {
      var init, last := steps[..|steps| - 1], steps[|steps| - 1];
      var s := Run(env, Start(now), init);
      Reachable(env, now, init);
      ClockMoves(env, s, last);
      if id in s.db.cells {
        AvailableOnceCreated(env, now, init, id);
        StepOnRun(env, s, last, id);
      } else {
        RunsComeFrom(env, s, last, id);
        if last.Tick? {
          TickNew(env, s, last.fires, id);
        }
      }
    }
  }

  /** q is queued, available, and the clock is past its creation. */
  ghost predicate Waiting(s: Sys, q: RunId) {
    && q in s.db.cells && s.db.cells[q].row.status == Queued
    && s.db.cells[q].row.availableAt <= s.db.clock && s.db.cells[q].row.createdAt < s.db.clock
  }

  /** One step that does not claim q: q keeps waiting behind the same runs, and a claim is of one of
      them and costs one credit. */
  lemma WaitingStep(env: Env, fused: bool, s: Sys, t: Sys, step: Step, q: RunId)
    requires Good(env, fused, s) && Allowed(fused, step) && Waiting(s, q) && t == Exec(env, s, step)
    requires step.Claim? ==> step.locked == {}
    requires !(Claiming(s, step) && step.id == q)
    ensures Good(env, fused, t) && Waiting(t, q) && Ahead(t.db, q) == Ahead(s.db, q)
    ensures Claiming(s, step) ==> step.id in Ahead(s.db, q)
    ensures CreditSum(env, fused, t.db.cells, Ahead(s.db, q))
         <= CreditSum(env, fused, s.db.cells, Ahead(s.db, q)) - if Claiming(s, step) then 1 else 0
  {
    GoodStep(env, fused, s, step);
    StepOnRun(env, s, step, q);
    ClockMoves(env, s, step);
    if Claiming(s, step) {
      ClaimsAreAhead(s, step, q);
    }
    PassingCosts(env, fused, s, t, step, Ahead(s.db, q));
    AheadIsFixed(env, s, t, step, q);
  }

  /** A run whose claims have not grown over all the steps was not claimed by the last one. */
  lemma NotClaimedLast(env: Env, s: Sys, steps: seq<Step>, q: RunId)
    requires RunsOk(env, s) && q in s.db.cells && steps != []
    requires var t := Run(env, s, steps); q in t.db.cells && Claims(t.db.cells[q]) == Claims(s.db.cells[q])
    ensures var m := Run(env, s, steps[..|steps| - 1]);
            && q in m.db.cells && Claims(m.db.cells[q]) == Claims(s.db.cells[q])
            && !(Claiming(m, steps[|steps| - 1]) && steps[|steps| - 1].id == q)
  {
    var init := steps[..|steps| - 1];
    RunsOkRun(env, s, init);
    ClaimsGrow(env, s, init, q);
    StepOnRun(env, Run(env, s, init), steps[|steps| - 1], q);
  }

  /** q has waited behind the same runs, and only they were claimed, at the cost of their credit. */
  ghost predicate Overtaken(env: Env, fused: bool, s: Sys, t: Sys, claimed: seq<RunId>, q: RunId)
    requires q in s.db.cells
  {
    && Waiting(t, q) && Ahead(t.db, q) == Ahead(s.db, q)
    && (forall id <- claimed :: id in Ahead(s.db, q))
    && Ahead(s.db, q) <= t.db.cells.Keys
    && |claimed| + CreditSum(env, fused, t.db.cells, Ahead(s.db, q))
       <= CreditSum(env, fused, s.db.cells, Ahead(s.db, q))
  }

  lemma {:induction false} OvertakingFrom(env: Env, fused: bool, s: Sys, steps: seq<Step>, q: RunId)
    requires Good(env, fused, s) && Waiting(s, q) && Serial(steps) && (fused ==> Fused(steps))
    requires var t := Run(env, s, steps); q in t.db.cells && Claims(t.db.cells[q]) == Claims(s.db.cells[q])
    ensures Overtaken(env, fused, s, Run(env, s, steps), Claimed(env, s, steps), q)
  {
    if steps != [] {
      var init := steps[..|steps| - 1];
      NotClaimedLast(env, s, steps, q);
      OvertakingFrom(env, fused, s, init, q);
      GoodRun(env, fused, s, init);
      OvertakenMore(env, fused, s, Run(env, s, init), Claimed(env, s, init), steps[|steps| - 1], q);
    }
  }

  lemma OvertakenMore(env: Env, fused: bool, s: Sys, m: Sys, claimed: seq<RunId>, step: Step, q: RunId)
    requires q in s.db.cells && Good(env, fused, m) && Allowed(fused, step) && Overtaken(env, fused, s, m, claimed, q)
    requires step.Claim? ==> step.locked == {}
    requires !(Claiming(m, step) && step.id == q)
    ensures Overtaken(env, fused, s, Exec(env, m, step), claimed + (if Claiming(m, step) then [step.id] else []), q)
  {
    WaitingStep(env, fused, m, Exec(env, m, step), step, q);
  }

  lemma {:induction false} GoodRun(env: Env, fused: bool, s: Sys, steps: seq<Step>)
    requires Good(env, fused, s) && (fused ==> Fused(steps))
    ensures Good(env, fused, Run(env, s, steps))
  {
    if steps != [] {
      GoodRun(env, fused, s, steps[..|steps| - 1]);
      GoodStep(env, fused, Run(env, s, steps[..|steps| - 1]), steps[|steps| - 1]);
    }
  }

  lemma {:induction false} RunsOkRun(env: Env, s: Sys, steps: seq<Step>)
    requires RunsOk(env, s)
    ensures RunsOk(env, Run(env, s, steps))
  {
    if steps != [] {
      RunsOkRun(env, s, steps[..|steps| - 1]);
      RunsOkStep(env, Run(env, s, steps[..|steps| - 1]), steps[|steps| - 1]);
    }
  }

  lemma {:induction false} ClaimsGrow(env: Env, s: Sys, steps: seq<Step>, id: RunId)
    requires RunsOk(env, s) && id in s.db.cells
    ensures id in Run(env, s, steps).db.cells && Claims(Run(env, s, steps).db.cells[id]) >= Claims(s.db.cells[id])
  {
    if steps != [] {
      ClaimsGrow(env, s, steps[..|steps| - 1], id);
      RunsOkRun(env, s, steps[..|steps| - 1]);
      StepOnRun(env, Run(env, s, steps[..|steps| - 1]), steps[|steps| - 1], id);
    }
  }

  /** Bounded overtaking: from any reachable state in which q is queued and the clock is past its
      creation, as long as q itself is not claimed, only runs created no later are claimed, and no more
      often than they can still undergo together. With `fused` this is the tighter bound for a gate
      that is one step; without it no assumption is made about the gate. */
  lemma BoundedOvertaking(env: Env, fused: bool, now: Time, past: seq<Step>, steps: seq<Step>, q: RunId)
    requires var s := Run(env, Start(now), past);
             && q in s.db.cells && s.db.cells[q].row.status == Queued && s.db.cells[q].row.createdAt < s.db.clock
             && q in Run(env, s, steps).db.cells
             && Claims(Run(env, s, steps).db.cells[q]) == Claims(s.db.cells[q])
    requires Serial(steps) && (fused ==> Fused(past) && Fused(steps))
    ensures var s := Run(env, Start(now), past);
            && (forall id <- Claimed(env, s, steps) :: id in Ahead(s.db, q))
            && |Claimed(env, s, steps)| <= CreditSum(env, fused, s.db.cells, Ahead(s.db, q))
            && Run(env, s, steps).db.cells[q].row.status == Queued
  {
    var s := Run(env, Start(now), past);
    Reachable(env, now, past);
    if fused {
      FusedParksOnce(env, now, past);
    }
    AvailableOnceCreated(env, now, past, q);
    OvertakingFrom(env, fused, s, steps, q);
    GoodRun(env, fused, s, steps);
    NothingOwed(env, fused, Run(env, s, steps), Ahead(s.db, q));
  }

  lemma NothingOwed(env: Env, fused: bool, t: Sys, ids: set<RunId>)
    requires Good(env, fused, t) && ids <= t.db.cells.Keys
    ensures CreditSum(env, fused, t.db.cells, ids) >= 0
  {
    forall id | id in ids ensures Credit(env, fused, t.db.cells[id]) >= 0 {
      CreditNotNegative(env, fused, t, id);
    }
    CreditSumNotNegative(env, fused, t, ids);
  }
}
