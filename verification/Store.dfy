/** The tables, and the one guarded way to move a run between states. */
module Store {
  import opened Wrappers
  import opened Models

  /** The tables runs, run_events, approvals and schedules. The child tables are indexed by
      their run_id column. `clock` is what now() returns. */
  class Database {
    var runs: map<RunId, Row>
    var events: map<RunId, seq<Event>>
    var approvals: map<RunId, seq<Approval>>
    var schedules: map<ScheduleId, Schedule>
    var clock: Time

    ghost predicate Valid()
      reads this
    {
      runs.Keys == events.Keys == approvals.Keys
    }

    ghost function View(): (v: Db)
      requires Valid()
      reads this
      ensures v.cells.Keys == runs.Keys && v.schedules == schedules && v.clock == clock
      ensures forall id :: id in runs ==> v.cells[id] == Cell(runs[id], events[id], approvals[id])
    {
      Db(map id | id in runs :: Cell(runs[id], events[id], approvals[id]), schedules, clock)
    }
  }

  /** A transaction that rewrote one run's rows has replaced that run's cell. */
  lemma Stored(v: Db, w: Db, id: RunId, c: Cell)
    requires w.cells.Keys == v.cells.Keys + {id} && w.cells[id] == c
    requires forall other :: other in v.cells && other != id ==> w.cells[other] == v.cells[other]
    requires w.schedules == v.schedules && w.clock == v.clock
    ensures w == v.(cells := v.cells[id := c])
  {
    assert w.cells == v.cells[id := c];
  }

  /** `transition`: the guarded UPDATE of the row followed by the audit event. On failure it
      has changed nothing; undoing the caller's own statements is the rollback's business. */
  method Transition(db: Database, id: RunId, from: RunStatus, to: RunStatus, extra: Row -> Row, detail: Detail)
    returns (r: Result<(), Error>)
    requires db.Valid()
    modifies db
    ensures db.Valid()
    ensures r.Success? <==> (from, to) in ALLOWED_TRANSITIONS && id in old(db.runs) && old(db.runs[id]).status == from
    ensures r.Success? ==>
              && db.runs == old(db.runs)[id := extra(old(db.runs[id])).(status := to)]
              && db.events == old(db.events)[id := old(db.events[id]) + [StatusChange(Some(from), to, detail)]]
              && db.approvals == old(db.approvals) && db.schedules == old(db.schedules) && db.clock == old(db.clock)
    ensures r.Failure? ==>
              && r.error == IllegalTransition
              && db.runs == old(db.runs) && db.events == old(db.events) && db.approvals == old(db.approvals)
              && db.schedules == old(db.schedules) && db.clock == old(db.clock)
  {
    if (from, to) !in ALLOWED_TRANSITIONS {
      return Failure(IllegalTransition);
    }
    if id !in db.runs || db.runs[id].status != from {
      return Failure(IllegalTransition);
    }
    db.runs := db.runs[id := extra(db.runs[id]).(status := to)];
    db.events := db.events[id := db.events[id] + [StatusChange(Some(from), to, detail)]];
    return Success(());
  }
}
