/** How a run comes to its end, over every interleaving. */
module Endings {
  import opened Wrappers
  import opened Models
  import opened Queue
  import opened Approvals
  import opened Worker
  import opened System
  import opened Lifecycle
  import opened Safety
  import opened Projection
  import opened Guarantees

  /** The ends a run can come to. */
  const ENDS: set<RunStatus> := {Completed, Failed, Rejected}

  /** The step brings the run to this end: a worker that executed it reports, its agent is unknown, its last
      lease has run out, or a human declines. */
  ghost predicate EndedBy(env: Env, s: Sys, step: Step, id: RunId, end: RunStatus) {
    && id in s.db.cells
    && var c := s.db.cells[id];
       if c.row.status == Running then
         || (&& step.Work? && PcOf(s, step.worker) == Executing(id)
             && end == if step.input.report.completed then Completed else Failed)
         || (&& step.Work? && PcOf(s, step.worker).Claimed? && PcOf(s, step.worker).id == id
             && PcOf(s, step.worker).row.agent !in env.registry && end == Failed)
         || (&& step.Reap? && id !in step.locked && c.row.leaseExpiresAt.Some?
             && c.row.leaseExpiresAt.value < s.db.clock && c.row.attempts >= c.row.maxAttempts && end == Failed)
       else
         && c.row.status == AwaitingApproval && step.Decide? && step.id == id && !step.approved
         && (exists i :: 0 <= i < |c.approvals| && c.approvals[i].status == Pending) && end == Rejected
  }

  lemma EndsByStep(env: Env, s: Sys, step: Step, id: RunId, end: RunStatus)
    requires id in s.db.cells && s.db.cells[id].row.status != end && end in ENDS
    ensures var t := Exec(env, s, step);
            id in t.db.cells && (t.db.cells[id].row.status == end <==> EndedBy(env, s, step, id, end))
  {
    Projects(env, s, step, id);
    if step.Work? {
      WorkEnds(env, s, step, id, end);
    }
  }

  lemma WorkEnds(env: Env, s: Sys, step: Step, id: RunId, end: RunStatus)
    requires id in s.db.cells && s.db.cells[id].row.status != end && end in ENDS && step.Work?
    ensures Apply(s.db.cells[id], OpOf(env, s, step, id), s.db.clock).row.status == end
       <==> EndedBy(env, s, step, id, end)
  {
  }

  lemma EndsOnce(env: Env, s: Sys, step: Step, id: RunId, end: RunStatus)
    requires EndedBy(env, s, step, id, end) && end in ENDS
    ensures s.db.cells[id].row.status != end
  {
  }

  lemma NewRunsAreQueued(env: Env, s: Sys, step: Step, id: RunId)
    requires RunsOk(env, s) && id !in s.db.cells && id in Exec(env, s, step).db.cells
    ensures Exec(env, s, step).db.cells[id].row.status == Queued
  {
    RunsComeFrom(env, s, step, id);
    if step.Tick? {
      TickNew(env, s, step.fires, id);
    }
  }

  ghost predicate EndedAt(env: Env, now: Time, steps: seq<Step>, id: RunId, end: RunStatus, k: nat) {
    k < |steps| && EndedBy(env, Run(env, Start(now), steps[..k]), steps[k], id, end)
  }

  lemma {:induction false} SomethingEndedIt(env: Env, now: Time, steps: seq<Step>, id: RunId, end: RunStatus)
    returns (k: nat)
    requires id in Run(env, Start(now), steps).db.cells && end in ENDS
    requires Run(env, Start(now), steps).db.cells[id].row.status == end
    ensures EndedAt(env, now, steps, id, end, k)
  {
    var n := |steps| - 1;
    var s := Run(env, Start(now), steps[..n]);
    Reachable(env, now, steps[..n]);
    if id !in s.db.cells {
      NewRunsAreQueued(env, s, steps[n], id);
      assert false;
    } else if s.db.cells[id].row.status == end {
      k := SomethingEndedIt(env, now, steps[..n], id, end);
      assert steps[..n][..k] == steps[..k] && steps[..n][k] == steps[k];
    } else {
      EndsByStep(env, s, steps[n], id, end);
      k := n;
    }
  }

  /** What has ended a run has ended it for good, and only its tags change after that. */
  lemma EndedForGood(env: Env, now: Time, steps: seq<Step>, id: RunId, end: RunStatus, k: nat)
    requires end in ENDS && EndedAt(env, now, steps, id, end, k)
    ensures var s, t := Run(env, Start(now), steps[..k]), Run(env, Start(now), steps);
            var u := Exec(env, s, steps[k]);
            && id in u.db.cells && id in t.db.cells
            && t.db.cells[id].row == u.db.cells[id].row.(tags := t.db.cells[id].row.tags)
            && t.db.cells[id].row.status == end
  {
    var s := Run(env, Start(now), steps[..k]);
    EndsOnce(env, s, steps[k], id, end);
    EndsByStep(env, s, steps[k], id, end);
    assert steps[..k + 1][..k] == steps[..k];
    assert Run(env, Start(now), steps[..k + 1]) == Exec(env, s, steps[k]);
    assert steps == steps[..k + 1] + steps[k + 1..];
    RunConcat(env, Start(now), steps[..k + 1], steps[k + 1..]);
    TerminalIsFrozen(env, Exec(env, s, steps[k]), steps[k + 1..], id);
  }

  /** A run is completed, failed or rejected if and only if one of the steps that can do so has: it is
      completed only by a worker that executed it and reported success, while it was still running. */
  lemma EndedIff(env: Env, now: Time, steps: seq<Step>, id: RunId, end: RunStatus)
    requires id in Run(env, Start(now), steps).db.cells && end in ENDS
    ensures Run(env, Start(now), steps).db.cells[id].row.status == end
       <==> exists k :: EndedAt(env, now, steps, id, end, k)
  {
    if Run(env, Start(now), steps).db.cells[id].row.status == end {
      var k := SomethingEndedIt(env, now, steps, id, end);
    }
    if k: nat :| EndedAt(env, now, steps, id, end, k) {
      EndedForGood(env, now, steps, id, end, k);
    }
  }

  /** What the executor reported is what the row says ever after. */
  lemma ReportStays(env: Env, now: Time, steps: seq<Step>, id: RunId, k: nat)
    requires k < |steps| && steps[k].Work?
    requires var s := Run(env, Start(now), steps[..k]);
             && PcOf(s, steps[k].worker) == Executing(id)
             && id in s.db.cells && s.db.cells[id].row.status == Running
    ensures var s, t := Run(env, Start(now), steps[..k]), Run(env, Start(now), steps);
            var was, report := s.db.cells[id].row, steps[k].input.report;
            && id in t.db.cells
            && t.db.cells[id].row == was.(status := if report.completed then Completed else Failed,
                                          result := report.result, error := report.error, costUsd := report.costUsd,
                                          sessionId := if report.sessionId.Some? then report.sessionId
                                                       else was.sessionId,
                                          finishedAt := Some(s.db.clock), lockedBy := None, leaseExpiresAt := None,
                                          tags := t.db.cells[id].row.tags)
  {
    EndedForGood(env, now, steps, id, if steps[k].input.report.completed then Completed else Failed, k);
  }
}
