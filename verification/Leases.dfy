/** What a lease promises: a run whose holder keeps the lease is left alone by the reaper, and one whose
    lease has run out is taken from it. */
module Leases {
  import opened Wrappers
  import opened Models
  import opened Queue
  import opened Worker
  import opened System
  import opened Lifecycle
  import opened Safety
  import opened Projection

  /** The step takes the run, or extends its holder's hold on it, for `minutes`. */
  ghost predicate Leases(s: Sys, step: Step, id: RunId, minutes: int) {
    || (&& step.Claim? && step.id == id && step.lease == minutes
        && PcOf(s, step.worker).Idle? && Oldest(s.db, step.locked, id))
    || (&& step.Heartbeat? && step.id == id && step.lease == minutes
        && id in s.db.cells && s.db.cells[id].row.status == Running
        && s.db.cells[id].row.lockedBy == Some(step.worker))
  }

  lemma LeaseStarts(env: Env, s: Sys, step: Step, id: RunId, minutes: int)
    requires Leases(s, step, id, minutes)
    ensures var t := Exec(env, s, step);
            && id in s.db.cells && id in t.db.cells && t.db.clock == s.db.clock
            && t.db.cells[id].row.status == Running && t.db.cells[id].row.lockedBy == Some(step.worker)
            && t.db.cells[id].row.leaseExpiresAt == Some(s.db.clock + 60 * minutes)
  {
  }

  /** If the run runs, its lease does not end before `end`. */
  predicate LeasedUntil(c: Cell, end: Time) {
    c.row.status == Running ==> c.row.leaseExpiresAt.Some? && c.row.leaseExpiresAt.value >= end
  }

  lemma OpKeepsLease(c: Cell, op: Op, now: Time, end: Time)
    requires LeasedUntil(c, end)
    requires op.Take? || op.Beat? ==> now + 60 * op.lease >= end
    ensures LeasedUntil(Apply(c, op, now), end)
  {
  }

  /** No one takes or extends the run for less than `minutes`. */
  ghost predicate NoShorter(steps: seq<Step>, id: RunId, minutes: int) {
    forall step <- steps :: (step.Claim? || step.Heartbeat?) && step.id == id ==> step.lease >= minutes
  }

  lemma {:induction false} LeaseStays(env: Env, s: Sys, steps: seq<Step>, id: RunId, minutes: int, start: Time)
    requires id in s.db.cells && LeasedUntil(s.db.cells[id], start + 60 * minutes) && start <= s.db.clock
    requires NoShorter(steps, id, minutes)
    ensures var t := Run(env, s, steps);
            id in t.db.cells && LeasedUntil(t.db.cells[id], start + 60 * minutes) && start <= t.db.clock
  {
    if steps != [] {
      var init, last := steps[..|steps| - 1], steps[|steps| - 1];
      assert forall step <- init :: step in steps;
      LeaseStays(env, s, init, id, minutes, start);
      var t := Run(env, s, init);
      assert last in steps;
      Projects(env, t, last, id);
      OpKeepsLease(t.db.cells[id], OpOf(env, t, last, id), t.db.clock, start + 60 * minutes);
      ClockForward(env, t, last);
    }
  }

  lemma ClockForward(env: Env, s: Sys, step: Step)
    ensures Exec(env, s, step).db.clock >= s.db.clock
  {
  }

  /** A run that was claimed, or whose holder's heartbeat came, for some minutes is not moved by any reap
      within these minutes, whatever happens meanwhile, as long as leases are not shortened. */
  lemma LeaseProtects(env: Env, s: Sys, step: Step, later: seq<Step>, id: RunId, minutes: int, locked: set<RunId>)
    requires Leases(s, step, id, minutes) && NoShorter(later, id, minutes)
    requires Run(env, Exec(env, s, step), later).db.clock <= s.db.clock + 60 * minutes
    ensures var u := Run(env, Exec(env, s, step), later);
            var w := Exec(env, u, Step.Reap(locked)).db;
            id in u.db.cells && id in w.cells && w.cells[id] == u.db.cells[id]
  {
    LeaseStarts(env, s, step, id, minutes);
    LeaseStays(env, Exec(env, s, step), later, id, minutes, s.db.clock);
    ReapColumns(Run(env, Exec(env, s, step), later).db, locked);
  }

  /** Once these minutes are over, a run that has not been moved or extended is taken from its holder by
      the first reap that does not pass over it. */
  lemma LeaseRunsOut(env: Env, s: Sys, step: Step, later: seq<Step>, id: RunId, minutes: int, locked: set<RunId>)
    requires Leases(s, step, id, minutes) && id !in locked
    requires var t, u := Exec(env, s, step), Run(env, Exec(env, s, step), later);
             && u.db.clock > s.db.clock + 60 * minutes
             && id in t.db.cells && id in u.db.cells && u.db.cells[id].row == t.db.cells[id].row
    ensures var u := Run(env, Exec(env, s, step), later);
            var w := Exec(env, u, Step.Reap(locked)).db;
            && id in w.cells && w.cells[id].row.lockedBy.None?
            && w.cells[id].row.status
               == if u.db.cells[id].row.attempts < u.db.cells[id].row.maxAttempts then Queued else Failed
  {
    LeaseStarts(env, s, step, id, minutes);
    ReapColumns(Run(env, Exec(env, s, step), later).db, locked);
  }
}
