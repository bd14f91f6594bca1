/** The gate promises that a rejected run was never executed. The code keeps the promise exactly
    for runs that may be attempted once, which is what every caller of enqueue asks for. */
module Rejection {
  import opened Wrappers
  import opened Models
  import opened Queue
  import opened Approvals
  import opened Scheduler
  import opened Worker
  import opened System
  import opened Lifecycle
  import opened Safety

  ghost predicate RejectedUnexecuted(env: Env, now: Time, steps: seq<Step>, id: RunId, maxAttempts: int) {
    var s := Run(env, Start(now), steps);
    id in s.db.cells && s.db.cells[id].row.maxAttempts == maxAttempts && s.db.cells[id].row.status == Rejected ==>
      s.invocations[id] == 0
  }

  /** With one attempt a run parks at most once, so a rejection is its only decision. */
  lemma OneAttemptKeepsPromise(env: Env, now: Time, steps: seq<Step>, id: RunId, maxAttempts: int)
    requires maxAttempts <= 1
    ensures RejectedUnexecuted(env, now, steps, id, maxAttempts)
  {
    var s := Run(env, Start(now), steps);
    Reachable(env, now, steps);
    if id in s.db.cells {
      var c := s.db.cells[id];
      RunOkAt(env, s, id);
      CountPositive(c.approvals, Approved);
      RowsByStatus(c.approvals);
    }
  }

  // ---- two attempts: a stale worker asks again while the approved run executes ------------

  const PATIENT := Input(Report(true, None, None, None, None), "{}", false)

  const HASTY := Input(Report(true, None, None, None, None), "{}", true)

  /** Worker A claims and stalls for longer than its lease; B claims the requeued run, both find no consent,
      B parks it and it is approved; C claims it and starts executing; only now A parks it. */
  function StaleAsker(agent: string, maxAttempts: int): seq<Step> {
    Stall(agent, maxAttempts) + RECLAIM + ASK + EXECUTE + ASK_AGAIN
  }

  function Stall(agent: string, maxAttempts: int): seq<Step> {
    [Enqueue(0, agent, Api, "{}", maxAttempts, "{}"), Step.Claim("A", 15, {}, 0), Elapse(901)]
  }

  const RECLAIM := [Step.Reap({}), Step.Claim("B", 15, {}, 0)]

  const ASK := [Work("A", PATIENT), Work("B", HASTY), Decide(0, true, "api", None)]

  const EXECUTE := [Step.Claim("C", 15, {}, 0), Work("C", PATIENT), Work("C", PATIENT)]

  const ASK_AGAIN := [Work("A", PATIENT), Decide(0, false, "api", None)]

  /** The database with run 0 alone in it. */
  function Alone(c: Cell, clock: Time): Db {
    Db(map[0 := c], map[], clock)
  }

  lemma Alone0(c: Cell, clock: Time)
    ensures Claimable(c.row, clock) ==> Oldest(Alone(c, clock), {}, 0)
    ensures Queue.Reap(Alone(c, clock), {}) == Alone(ReapCell(c, clock), clock)
    ensures forall d :: Alone(c, clock).(cells := Alone(c, clock).cells[0 := d]) == Alone(d, clock)
  {
    assert Queue.Reap(Alone(c, clock), {}).cells == map[0 := ReapCell(c, clock)];
    forall d ensures map[0 := c][0 := d] == map[0 := d] {}
  }

  function WithClaim(s: Sys, w: WorkerId, lease: int): Sys
    requires 0 in s.db.cells
  {
    var c := ClaimCell(s.db.cells[0], w, lease, s.db.clock);
    s.(db := Alone(c, s.db.clock), workers := s.workers[w := Claimed(0, c.row)])
  }

  lemma ClaimAlone(env: Env, s: Sys, w: WorkerId, lease: int)
    requires 0 in s.db.cells && s.db == Alone(s.db.cells[0], s.db.clock)
    requires PcOf(s, w).Idle? && Claimable(s.db.cells[0].row, s.db.clock)
    ensures Exec(env, s, Step.Claim(w, lease, {}, 0)) == WithClaim(s, w, lease)
  {
    Alone0(s.db.cells[0], s.db.clock);
  }

  /** A claims the new run, and its lease of 15 minutes runs out. */
  lemma FirstClaim(env: Env, now: Time, agent: string, maxAttempts: int) returns (s: Sys)
    ensures s == Run(env, Start(now), Stall(agent, maxAttempts))
    ensures var row := NewRow(agent, Api, "{}", None, maxAttempts, "{}", now);
            var c := ClaimCell(NewCell(row), "A", 15, now);
            s == Sys(Alone(c, now + 901), map["A" := Claimed(0, c.row)], multiset{}, map[])
  {
    var steps := Stall(agent, maxAttempts);
    var s1 := Start(now).(db := Alone(NewCell(NewRow(agent, Api, "{}", None, maxAttempts, "{}", now)), now));
    assert Exec(env, Start(now), steps[0]) == s1;
    ClaimAlone(env, s1, "A", 15);
    RunThree(env, Start(now), steps[0], steps[1], steps[2]);
    s := Run(env, Start(now), steps);
  }

  /** Both workers hold the run, and B's claim is the current one. */
  ghost predicate BothClaimed(s: Sys, agent: string, now: Time, maxAttempts: int) {
    && 0 in s.db.cells && s.db == Alone(s.db.cells[0], now + 901) && s.invocations == multiset{}
    && s.db.cells[0].approvals == []
    && (var row := s.db.cells[0].row;
        && row.agent == agent && row.status == Running && row.attempts == 2
        && row.availableAt == now && row.maxAttempts == maxAttempts)
    && PcOf(s, "A").Claimed? && PcOf(s, "A").id == 0 && PcOf(s, "A").row.agent == agent
    && PcOf(s, "B").Claimed? && PcOf(s, "B").id == 0 && PcOf(s, "B").row.agent == agent
    && PcOf(s, "C").Idle?
  }

  lemma TwoClaims(env: Env, now: Time, agent: string, maxAttempts: int, s: Sys) returns (t: Sys)
    requires maxAttempts >= 2
    requires var row := NewRow(agent, Api, "{}", None, maxAttempts, "{}", now);
             var c := ClaimCell(NewCell(row), "A", 15, now);
             s == Sys(Alone(c, now + 901), map["A" := Claimed(0, c.row)], multiset{}, map[])
    ensures t == Run(env, s, RECLAIM) && BothClaimed(t, agent, now, maxAttempts)
  {
    t := ReapedAndReclaimed(env, s);
    RunTwo(env, s, RECLAIM[0], RECLAIM[1]);
  }

  /** The reaper requeues an expired run that has attempts left, and B claims it. */
  lemma ReapedAndReclaimed(env: Env, s: Sys) returns (t: Sys)
    requires 0 in s.db.cells && s.db == Alone(s.db.cells[0], s.db.clock)
    requires var row := s.db.cells[0].row;
             LeaseOver(row, s.db.clock) && row.attempts < row.maxAttempts && row.availableAt <= s.db.clock
    requires PcOf(s, "B").Idle?
    ensures t == Exec(env, Exec(env, s, Step.Reap({})), Step.Claim("B", 15, {}, 0))
    ensures t == WithClaim(s.(db := Alone(RequeueCell(s.db.cells[0]), s.db.clock)), "B", 15)
  {
    Alone0(s.db.cells[0], s.db.clock);
    var requeued := s.(db := Alone(RequeueCell(s.db.cells[0]), s.db.clock));
    assert Exec(env, s, Step.Reap({})) == requeued;
    ClaimAlone(env, requeued, "B", 15);
    t := WithClaim(requeued, "B", 15);
  }

  /** Both look for consent and find none; B's question is answered yes. */
  lemma AskedAndApproved(env: Env, s: Sys, agent: string, now: Time, maxAttempts: int) returns (t: Sys)
    requires Gated(env, agent) && BothClaimed(s, agent, now, maxAttempts)
    ensures t == Run(env, s, ASK)
    ensures 0 in t.db.cells && t.db == Alone(t.db.cells[0], now + 901) && t.invocations == multiset{}
    ensures t.db.cells[0].row == s.db.cells[0].row.(status := Queued, attempts := s.db.cells[0].row.attempts - 1,
                                                     lockedBy := None, leaseExpiresAt := None)
    ensures Consented(t.db.cells[0].approvals)
    ensures PcOf(t, "A") == Parking(0, PcOf(s, "A").row)
    ensures PcOf(t, "C") == PcOf(s, "C")
  {
    RunThree(env, s, ASK[0], ASK[1], ASK[2]);
    var a, b := PcOf(s, "A"), PcOf(s, "B");
    var c := s.db.cells[0];
    Alone0(c, now + 901);
    var s1 := Exec(env, s, Work("A", PATIENT));
    assert s1 == s.(workers := s.workers["A" := Parking(0, a.row)]);
    var parked := ParkCell(c, GateAction(agent), b.row.params, now + 901);
    var s2 := Exec(env, s1, Work("B", HASTY));
    assert s2 == s1.(db := Alone(parked, now + 901), workers := s1.workers["B" := Idle]);
    assert parked.approvals == [NewApproval(GateAction(agent), b.row.params, now + 901)];
    assert parked.approvals[0].status == Pending;
    Alone0(parked, now + 901);
    t := Exec(env, s2, Decide(0, true, "api", None));
    assert t == s2.(db := Alone(DecideCell(parked, true, "api", None, now + 901), now + 901));
    assert t.db.cells[0].approvals[0].status == Approved;
  }

  /** C executes the approved run. */
  lemma Executed(env: Env, s: Sys, now: Time) returns (t: Sys)
    requires 0 in s.db.cells && s.db == Alone(s.db.cells[0], now + 901) && s.invocations == multiset{}
    requires s.db.cells[0].row.status == Queued && s.db.cells[0].row.availableAt <= now + 901
    requires Consented(s.db.cells[0].approvals) && PcOf(s, "C").Idle? && Gated(env, s.db.cells[0].row.agent)
    ensures t == Run(env, s, EXECUTE)
    ensures t.db == Alone(ClaimCell(s.db.cells[0], "C", 15, now + 901), now + 901) && t.invocations == multiset{0}
    ensures PcOf(t, "A") == PcOf(s, "A")
  {
    ClaimAlone(env, s, "C", 15);
    var s1 := WithClaim(s, "C", 15);
    var s2 := Exec(env, s1, Work("C", PATIENT));
    assert s2 == s1.(workers := s1.workers["C" := Cleared(0)]);
    t := Exec(env, s2, Work("C", PATIENT));
    assert t == s2.(workers := s2.workers["C" := Executing(0)], invocations := multiset{0});
    RunThree(env, s, EXECUTE[0], EXECUTE[1], EXECUTE[2]);
  }

  /** A, which asked long ago, parks the run again, and now the answer is no. */
  lemma RejectedAtLast(env: Env, s: Sys, now: Time) returns (t: Sys)
    requires 0 in s.db.cells && s.db == Alone(s.db.cells[0], now + 901) && s.db.cells[0].row.status == Running
    requires PcOf(s, "A").Parking? && PcOf(s, "A").id == 0
    ensures t == Run(env, s, ASK_AGAIN)
    ensures 0 in t.db.cells && t.db.cells[0].row.status == Rejected && t.invocations == s.invocations
    ensures t.db.cells[0].row.maxAttempts == s.db.cells[0].row.maxAttempts
  {
    var a, c := PcOf(s, "A"), s.db.cells[0];
    Alone0(c, now + 901);
    var parked := ParkCell(c, GateAction(a.row.agent), a.row.params, now + 901);
    var s1 := Exec(env, s, Work("A", PATIENT));
    assert s1 == s.(db := Alone(parked, now + 901), workers := s.workers["A" := Idle]);
    assert parked.approvals[|parked.approvals| - 1].status == Pending;
    Alone0(parked, now + 901);
    t := Exec(env, s1, Decide(0, false, "api", None));
    RunTwo(env, s, ASK_AGAIN[0], ASK_AGAIN[1]);
  }

  lemma Composed(env: Env, s: Sys, a: seq<Step>, b: seq<Step>, c: seq<Step>, d: seq<Step>, e: seq<Step>)
    ensures Run(env, s, a + b + c + d + e)
         == Run(env, Run(env, Run(env, Run(env, Run(env, s, a), b), c), d), e)
  {
    RunConcat(env, s, a + b + c + d, e);
    RunConcat(env, s, a + b + c, d);
    RunConcat(env, s, a + b, c);
    RunConcat(env, s, a, b);
  }

  lemma StaleAskerBreaksPromise(env: Env, now: Time, agent: string, maxAttempts: int)
    requires Gated(env, agent) && maxAttempts >= 2
    ensures !RejectedUnexecuted(env, now, StaleAsker(agent, maxAttempts), 0, maxAttempts)
  {
    var s := FirstClaim(env, now, agent, maxAttempts);
    var t := TwoClaims(env, now, agent, maxAttempts, s);
    var u := AskedAndApproved(env, t, agent, now, maxAttempts);
    var v := Executed(env, u, now);
    var w := RejectedAtLast(env, v, now);
    Composed(env, Start(now), Stall(agent, maxAttempts), RECLAIM, ASK, EXECUTE, ASK_AGAIN);
  }

  /** "Reject never executes" holds over every interleaving if and only if the run was enqueued
      with at most one attempt. */
  lemma RejectedNeverExecutedIff(env: Env, now: Time, agent: string, maxAttempts: int)
    requires Gated(env, agent)
    ensures (forall steps, id :: RejectedUnexecuted(env, now, steps, id, maxAttempts)) <==> maxAttempts <= 1
  {
    if maxAttempts <= 1 {
      forall steps, id {
        OneAttemptKeepsPromise(env, now, steps, id, maxAttempts);
      }
    } else {
      StaleAskerBreaksPromise(env, now, agent, maxAttempts);
    }
  }
}
