/** What every transaction on a run keeps: its audit path, its attempt budget, its lease columns
    and its consent rows, all tied to one another. */
module Lifecycle {
  import opened Wrappers
  import opened Models
  import opened Queue
  import opened Approvals

  // ---- the audit path -----------------------------------------------------

  type Edge = (Option<RunStatus>, RunStatus)

  /** The status changes of an event list, in order. */
  function Trail(events: seq<Event>): (t: seq<Edge>)
    ensures |t| <= |events|
  {
    if events == [] then []
    else
      var rest := Trail(events[..|events| - 1]);
      match events[|events| - 1]
      case StatusChange(from, to, _) => rest + [(from, to)]
      case Message(_, _) => rest
  }

  lemma TrailSnoc(events: seq<Event>, e: Event)
    ensures Trail(events + [e]) == Trail(events) + if e.StatusChange? then [(e.from, e.to)] else []
  {
    assert (events + [e])[..|events|] == events;
  }

  /** From None to queued, then along allowed edges only, each starting where the last ended. */
  predicate IsPath(t: seq<Edge>, at: RunStatus) {
    && t != [] && t[|t| - 1].1 == at
    && (if |t| == 1 then t[0] == (None, Queued)
        else
          var from := t[|t| - 1].0;
          from.Some? && (from.value, at) in ALLOWED_TRANSITIONS && IsPath(t[..|t| - 1], from.value))
  }

  lemma PathSnoc(t: seq<Edge>, at: RunStatus, to: RunStatus)
    requires IsPath(t, at) && (at, to) in ALLOWED_TRANSITIONS
    ensures IsPath(t + [(Some(at), to)], to)
  {
    assert (t + [(Some(at), to)])[..|t|] == t;
  }

  /** On a path a terminal status can only be the last one. */
  lemma {:induction false} TerminalIsLast(t: seq<Edge>, at: RunStatus, i: nat)
    requires IsPath(t, at) && i < |t| && t[i].1 in TERMINAL
    ensures i == |t| - 1
  {
    if i < |t| - 1 {
      TerminalIsLast(t[..|t| - 1], t[|t| - 1].0.value, i);
    }
  }

  /** The path read edge by edge. */
  lemma {:induction false} PathEdges(t: seq<Edge>, at: RunStatus, i: nat)
    requires IsPath(t, at) && i < |t|
    ensures if i == 0 then t[i] == (None, Queued)
            else t[i].0 == Some(t[i - 1].1) && (t[i - 1].1, t[i].1) in ALLOWED_TRANSITIONS
  {
    if i < |t| - 1 {
      PathEdges(t[..|t| - 1], t[|t| - 1].0.value, i);
    }
  }

  function Count(t: seq<Edge>, e: Edge): nat {
    if t == [] then 0 else Count(t[..|t| - 1], e) + (if t[|t| - 1] == e then 1 else 0)
  }

  lemma CountEdge(t: seq<Edge>, last: Edge, e: Edge)
    ensures Count(t + [last], e) == Count(t, e) + if last == e then 1 else 0
  {
    assert (t + [last])[..|t|] == t;
  }

  function Claims(c: Cell): nat {
    Count(Trail(c.events), (Some(Queued), Running))
  }

  function Parks(c: Cell): nat {
    Count(Trail(c.events), (Some(Running), AwaitingApproval))
  }

  function Grants(c: Cell): nat {
    Count(Trail(c.events), (Some(AwaitingApproval), Queued))
  }

  // ---- consent rows -------------------------------------------------------

  function CountRows(rows: seq<Approval>, status: ApprovalStatus): nat {
    if rows == [] then 0
    else CountRows(rows[..|rows| - 1], status) + if rows[|rows| - 1].status == status then 1 else 0
  }

  lemma CountSnoc(rows: seq<Approval>, a: Approval, status: ApprovalStatus)
    ensures CountRows(rows + [a], status) == CountRows(rows, status) + if a.status == status then 1 else 0
  {
    assert (rows + [a])[..|rows|] == rows;
  }

  lemma {:induction false} CountPositive(rows: seq<Approval>, status: ApprovalStatus)
    ensures CountRows(rows, status) > 0 <==> exists i :: 0 <= i < |rows| && rows[i].status == status
  {
    if rows != [] {
      var rest := rows[..|rows| - 1];
      CountPositive(rest, status);
      if CountRows(rest, status) > 0 {
        var i :| 0 <= i < |rest| && rest[i].status == status;
        assert rows[i].status == status;
      }
      if i :| 0 <= i < |rows| && rows[i].status == status {
        assert i < |rest| ==> rest[i].status == status;
      }
    }
  }

  /** A decision turns every pending row into a decided one and leaves the others alone. */
  lemma {:induction false} CountDecided(rows: seq<Approval>, approved: bool, via: string, note: Option<string>,
                                        now: Time)
    ensures var after := DecideRows(rows, approved, via, note, now);
            && CountRows(after, Pending) == 0
            && CountRows(after, DecidedStatus(approved))
               == CountRows(rows, DecidedStatus(approved)) + CountRows(rows, Pending)
            && CountRows(after, DecidedStatus(!approved)) == CountRows(rows, DecidedStatus(!approved))
            && CountRows(after, Expired) == CountRows(rows, Expired)
  {
    if rows != [] {
      var n := |rows| - 1;
      CountDecided(rows[..n], approved, via, note, now);
      assert DecideRows(rows, approved, via, note, now)[..n] == DecideRows(rows[..n], approved, via, note, now);
    }
  }

  lemma {:induction false} RowsByStatus(rows: seq<Approval>)
    ensures |rows| == CountRows(rows, Pending) + CountRows(rows, Approved)
                      + CountRows(rows, Declined) + CountRows(rows, Expired)
  {
    if rows != [] {
      RowsByStatus(rows[..|rows| - 1]);
    }
  }

  // ---- the invariant ------------------------------------------------------

  /** Executions a run may use up. enqueue does not check max_attempts: a run enqueued with
      less than one is still claimed once. */
  function Budget(row: Row): int {
    if row.maxAttempts < 1 then 1 else row.maxAttempts
  }

  ghost predicate AuditOk(c: Cell) {
    && IsPath(Trail(c.events), c.row.status)
    && |Trail(c.events)| == 2 * Claims(c) + Parks(c) + if c.row.status in {Running, AwaitingApproval} then 0 else 1
  }

  ghost predicate AttemptsOk(c: Cell) {
    && c.row.attempts == Claims(c) - Parks(c)
    && 0 <= c.row.attempts <= Budget(c.row)
    && (c.row.status in {Queued, AwaitingApproval} ==> c.row.attempts < Budget(c.row))
    && (c.row.status == Running ==> 1 <= c.row.attempts)
  }

  ghost predicate LeaseOk(c: Cell) {
    && (c.row.lockedBy.Some? <==> c.row.status == Running)
    && (c.row.leaseExpiresAt.Some? <==> c.row.status == Running)
    && (c.row.finishedAt.Some? <==> c.row.status in {Completed, Failed, Rejected})
    && c.row.status != Cancelled
  }

  ghost predicate ConsentOk(c: Cell) {
    && CountRows(c.approvals, Pending) == (if c.row.status == AwaitingApproval then 1 else 0)
    && CountRows(c.approvals, Declined) == (if c.row.status == Rejected then 1 else 0)
    && CountRows(c.approvals, Expired) == 0
    && CountRows(c.approvals, Approved) == Grants(c)
    && |c.approvals| == Parks(c)
  }

  ghost predicate CellInv(c: Cell) {
    AuditOk(c) && AttemptsOk(c) && LeaseOk(c) && ConsentOk(c)
  }

  // ---- every transaction keeps it -----------------------------------------

  lemma NewCellInv(row: Row)
    requires row.status == Queued && row.attempts == 0
    requires row.lockedBy.None? && row.leaseExpiresAt.None? && row.finishedAt.None?
    ensures CellInv(NewCell(row))
    ensures Claims(NewCell(row)) == Parks(NewCell(row)) == 0
  {
    TrailSnoc([], StatusChange(None, Queued, Enqueued(row.trigger)));
    assert [] + [StatusChange(None, Queued, Enqueued(row.trigger))] == NewCell(row).events;
    assert Trail(NewCell(row).events) == [(None, Queued)];
    FirstEdge();
  }

  lemma FirstEdge()
    ensures forall e: Edge :: Count([(None, Queued)], e) == if e == (None, Queued) then 1 else 0
  {
    var none: seq<Edge> := [];
    forall e: Edge ensures Count([(None, Queued)], e) == if e == (None, Queued) then 1 else 0 {
      CountEdge(none, (None, Queued), e);
      assert none + [(None, Queued)] == [(None, Queued)];
    }
  }

  /** What one status move does to the path and its counts. */
  lemma MovedTrail(c: Cell, to: RunStatus, extra: Row -> Row, detail: Detail)
    requires IsPath(Trail(c.events), c.row.status) && (c.row.status, to) in ALLOWED_TRANSITIONS
    ensures var d := Moved(c, to, extra, detail);
            && IsPath(Trail(d.events), to)
            && Trail(d.events) == Trail(c.events) + [(Some(c.row.status), to)]
            && Claims(d) == Claims(c) + (if (c.row.status, to) == (Queued, Running) then 1 else 0)
            && Parks(d) == Parks(c) + (if (c.row.status, to) == (Running, AwaitingApproval) then 1 else 0)
            && Grants(d) == Grants(c) + (if (c.row.status, to) == (AwaitingApproval, Queued) then 1 else 0)
  {
    TrailSnoc(c.events, StatusChange(Some(c.row.status), to, detail));
    PathSnoc(Trail(c.events), c.row.status, to);
    forall e {
      CountEdge(Trail(c.events), (Some(c.row.status), to), e);
    }
  }

  lemma ClaimKeeps(c: Cell, worker: WorkerId, lease: int, now: Time)
    requires CellInv(c) && c.row.status == Queued
    ensures var d := ClaimCell(c, worker, lease, now);
            CellInv(d) && Claims(d) == Claims(c) + 1 && Parks(d) == Parks(c)
  {
    MovedTrail(c, Running, (row: Row) => ClaimedRow(row, worker, lease, now), ByWorker(worker));
    var d := ClaimCell(c, worker, lease, now);
    assert Trail(d.events) == Trail(c.events) + [(Some(Queued), Running)];
  }

  lemma HeartbeatKeeps(c: Cell, worker: WorkerId, lease: int, now: Time)
    requires CellInv(c)
    ensures CellInv(HeartbeatCell(c, worker, lease, now))
  {
  }

  lemma FinishKeeps(c: Cell, report: Report, now: Time)
    requires CellInv(c) && c.row.status == Running
    ensures var d := FinishCell(c, report, now);
            CellInv(d) && Claims(d) == Claims(c) && Parks(d) == Parks(c)
  {
    MovedTrail(c, FinishStatus(report), (row: Row) => FinishedRow(row, report, now), Outcome(report.error));
  }

  lemma ReapKeeps(c: Cell, now: Time)
    requires CellInv(c)
    ensures var d := ReapCell(c, now);
            CellInv(d) && Claims(d) == Claims(c) && Parks(d) == Parks(c)
  {
    if LeaseOver(c.row, now) {
      if c.row.attempts < c.row.maxAttempts {
        MovedTrail(c, Queued, RequeuedRow, LeaseExpired);
      } else {
        MovedTrail(c, Failed, (row: Row) => ExhaustedRow(row, now), LeaseExpired);
      }
    }
  }

  lemma ParkKeeps(c: Cell, action: string, payload: Json, now: Time)
    requires CellInv(c) && c.row.status == Running
    ensures var d := ParkCell(c, action, payload, now);
            && CellInv(d) && Claims(d) == Claims(c) && Parks(d) == Parks(c) + 1
            && (Consented(d.approvals) <==> Consented(c.approvals))
  {
    var asked := c.(approvals := c.approvals + [NewApproval(action, payload, now)]);
    MovedTrail(asked, AwaitingApproval, ParkedRow, ConsentAsked(|c.approvals|, action));
    RowsAfterAsking(c.approvals, NewApproval(action, payload, now));
  }

  lemma RowsAfterAsking(rows: seq<Approval>, a: Approval)
    requires a.status == Pending
    ensures forall status ::
              CountRows(rows + [a], status) == CountRows(rows, status) + if status == Pending then 1 else 0
    ensures Consented(rows + [a]) <==> Consented(rows)
  {
    forall status {
      CountSnoc(rows, a, status);
    }
    CountPositive(rows, Approved);
    CountPositive(rows + [a], Approved);
  }

  lemma DecideKeeps(c: Cell, approved: bool, via: string, note: Option<string>, now: Time)
    requires CellInv(c) && c.row.status == AwaitingApproval
    ensures var d := DecideCell(c, approved, via, note, now);
            && CellInv(d) && Claims(d) == Claims(c) && Parks(d) == Parks(c)
            && (Consented(d.approvals) <==> Consented(c.approvals) || approved)
  {
    var decided := c.(approvals := DecideRows(c.approvals, approved, via, note, now));
    MovedTrail(decided, if approved then Queued else Rejected, (row: Row) => DecidedRow(row, approved, now),
               Decision(via, note));
    RowsAfterDecide(c.approvals, approved, via, note, now);
  }

  lemma RowsAfterDecide(rows: seq<Approval>, approved: bool, via: string, note: Option<string>, now: Time)
    requires CountRows(rows, Pending) == 1
    ensures var after := DecideRows(rows, approved, via, note, now);
            && CountRows(after, Pending) == 0 && CountRows(after, Expired) == CountRows(rows, Expired)
            && CountRows(after, Approved) == CountRows(rows, Approved) + (if approved then 1 else 0)
            && CountRows(after, Declined) == CountRows(rows, Declined) + (if approved then 0 else 1)
            && (Consented(after) <==> Consented(rows) || approved)
  {
    CountDecided(rows, approved, via, note, now);
    CountPositive(rows, Approved);
    CountPositive(DecideRows(rows, approved, via, note, now), Approved);
  }

  lemma MessageKeeps(c: Cell, kind: string, payload: Json)
    requires CellInv(c)
    ensures var d := c.(events := c.events + [Message(kind, payload)]);
            CellInv(d) && Trail(d.events) == Trail(c.events)
  {
    TrailSnoc(c.events, Message(kind, payload));
  }

  /** Before the first approval a run has parked at most once, and has not parked while it runs. */
  lemma UnapprovedParks(c: Cell)
    requires CellInv(c) && !Consented(c.approvals)
    ensures Parks(c) == if c.row.status in {AwaitingApproval, Rejected} then 1 else 0
  {
    CountPositive(c.approvals, Approved);
    RowsByStatus(c.approvals);
  }
}
