/** Consent gates as data: a pending approvals row parks its run until a human decides. */
module Approvals {
  import opened Wrappers
  import opened Models
  import opened Store

  function NewApproval(action: string, payload: Json, now: Time): Approval {
    Approval(action, payload, Pending, now, None, None, None)
  }

  /** Parking gives the attempt back. */
  function ParkedRow(row: Row): Row {
    row.(lockedBy := None, leaseExpiresAt := None, attempts := row.attempts - 1)
  }

  function ParkCell(c: Cell, action: string, payload: Json, now: Time): Cell {
    var asked := c.(approvals := c.approvals + [NewApproval(action, payload, now)]);
    Moved(asked, AwaitingApproval, ParkedRow, ConsentAsked(|c.approvals|, action))
  }

  /** Inserts the approval first; when the move fails, the rollback removes it again. */
  method Request(db: Database, id: RunId, action: string, payload: Json) returns (r: Result<nat, Error>)
    requires db.Valid()
    modifies db
    ensures db.Valid()
    ensures r.Success? <==> id in old(db.runs) && old(db.runs[id]).status == Running
    ensures r.Success? ==>
              var v := old(db.View());
              && r.value == |v.cells[id].approvals|
              && db.View() == v.(cells := v.cells[id := ParkCell(v.cells[id], action, payload, v.clock)])
    ensures r.Success? ==>
              var was, rows := old(db.runs)[id], old(db.approvals)[id];
              && db.runs == old(db.runs)[id := was.(status := AwaitingApproval, attempts := was.attempts - 1,
                                                    lockedBy := None, leaseExpiresAt := None)]
              && db.approvals == old(db.approvals)[id :=
                   rows + [Approval(action, payload, Pending, requestedAt := db.clock, decidedAt := None,
                                    decidedVia := None, note := None)]]
              && db.events == old(db.events)[id :=
                   old(db.events)[id] + [StatusChange(Some(Running), AwaitingApproval, ConsentAsked(|rows|, action))]]
    ensures r.Failure? ==> db.View() == old(db.View())
  {
    if id !in db.runs {
      return Failure(Constraint);
    }
    var before := db.approvals;
    ghost var v := db.View();
    var approval := |db.approvals[id]|;
    db.approvals := db.approvals[id := db.approvals[id] + [NewApproval(action, payload, db.clock)]];
    var moved := Transition(db, id, Running, AwaitingApproval, ParkedRow, ConsentAsked(approval, action));
    if moved.Failure? {
      db.approvals := before;
      assert db.View() == v;
      return Failure(moved.error);
    }
    Stored(v, db.View(), id, ParkCell(v.cells[id], action, payload, db.clock));
    return Success(approval);
  }

  predicate Consented(rows: seq<Approval>) {
    exists i :: 0 <= i < |rows| && rows[i].status == Approved
  }

  /** Only reads: the answer is about the state at the moment of the query. */
  method HasApproved(db: Database, id: RunId) returns (yes: bool)
    requires db.Valid()
    ensures yes <==> id in db.runs && Consented(db.approvals[id])
    ensures yes <==> id in db.runs && exists i :: 0 <= i < |db.approvals[id]| && db.approvals[id][i].status == Approved
  {
    yes := id in db.runs && Consented(db.approvals[id]);
  }

  function DecidedStatus(approved: bool): ApprovalStatus {
    if approved then Approved else Declined
  }

  /** The UPDATE of every pending row of the run. */
  function DecideRows(rows: seq<Approval>, approved: bool, via: string, note: Option<string>, now: Time)
    : (r: seq<Approval>)
    ensures |r| == |rows|
    ensures forall i :: 0 <= i < |rows| && rows[i].status != Pending ==> r[i] == rows[i]
    ensures forall i :: 0 <= i < |rows| && rows[i].status == Pending ==>
              r[i].status == DecidedStatus(approved) && r[i].decidedVia == Some(via)
  {
    seq(|rows|, i requires 0 <= i < |rows| =>
      if rows[i].status == Pending
      then rows[i].(status := DecidedStatus(approved), decidedAt := Some(now), decidedVia := Some(via), note := note)
      else rows[i])
  }

  predicate HasPending(rows: seq<Approval>) {
    exists i :: 0 <= i < |rows| && rows[i].status == Pending
  }

  function DecidedRow(row: Row, approved: bool, now: Time): Row {
    if approved then row else row.(finishedAt := Some(now))
  }

  function DecideCell(c: Cell, approved: bool, via: string, note: Option<string>, now: Time): Cell {
    var decided := c.(approvals := DecideRows(c.approvals, approved, via, note, now));
    Moved(decided, if approved then Queued else Rejected, (row: Row) => DecidedRow(row, approved, now),
          Decision(via, note))
  }

  /** The transaction of decide, or no change when it raises. */
  function DecideIn(v: Db, id: RunId, approved: bool, via: string, note: Option<string>): Db {
    if id in v.cells && HasPending(v.cells[id].approvals) && v.cells[id].row.status == AwaitingApproval
    then v.(cells := v.cells[id := DecideCell(v.cells[id], approved, via, note, v.clock)])
    else v
  }

  /** What a decision makes of a waiting run with a pending row, column by column; to any other run it
      does nothing. */
  lemma DecideColumns(v: Db, id: RunId, approved: bool, via: string, note: Option<string>)
    requires id in v.cells
    ensures var c, d := v.cells[id], DecideIn(v, id, approved, via, note).cells[id];
            var end := if approved then Queued else Rejected;
            if c.row.status != AwaitingApproval
               || forall i :: 0 <= i < |c.approvals| ==> c.approvals[i].status != Pending
            then d == c
            else
              && d.row == c.row.(status := end, finishedAt := if approved then c.row.finishedAt else Some(v.clock))
              && d.events == c.events + [StatusChange(Some(AwaitingApproval), end, Decision(via, note))]
              && |d.approvals| == |c.approvals|
              && forall i :: 0 <= i < |c.approvals| ==>
                   d.approvals[i] ==
                   if c.approvals[i].status != Pending then c.approvals[i]
                   else c.approvals[i].(status := if approved then Approved else Declined, decidedAt := Some(v.clock),
                                        decidedVia := Some(via), note := note)
    ensures var w := DecideIn(v, id, approved, via, note); w == v.(cells := v.cells[id := w.cells[id]])
  {
  }

  method Decide(db: Database, id: RunId, approved: bool, via: string, note: Option<string>)
    returns (r: Result<(), Error>)
    requires db.Valid()
    modifies db
    ensures db.Valid()
    ensures r.Success? <==>
              id in old(db.runs) && HasPending(old(db.approvals[id])) && old(db.runs[id]).status == AwaitingApproval
    ensures r.Success? ==>
              var v := old(db.View());
              db.View() == v.(cells := v.cells[id := DecideCell(v.cells[id], approved, via, note, v.clock)])
    ensures r.Failure? ==> db.View() == old(db.View())
    ensures r == Failure(NoPendingApproval) <==> id !in old(db.runs) || !HasPending(old(db.approvals[id]))
  {
    var now := db.clock;
    if id !in db.runs || !HasPending(db.approvals[id]) {
      return Failure(NoPendingApproval);
    }
    var before := db.approvals;
    ghost var v := db.View();
    db.approvals := db.approvals[id := DecideRows(db.approvals[id], approved, via, note, now)];
    r := Transition(db, id, AwaitingApproval, if approved then Queued else Rejected,
                    (row: Row) => DecidedRow(row, approved, now),
                    Decision(via, note));
    if r.Failure? {
      db.approvals := before;
      assert db.View() == v;
    } else {
      Stored(v, db.View(), id, DecideCell(v.cells[id], approved, via, note, now));
    }
  }
}
