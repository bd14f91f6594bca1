/** The run state machine: its states, its legal moves and the rows that carry them. */
module Models {
  import opened Wrappers

  datatype RunStatus = Queued | Running | AwaitingApproval | Completed | Failed | Rejected | Cancelled

  const TERMINAL: set<RunStatus> := {Completed, Failed, Rejected, Cancelled}

  const ALLOWED_TRANSITIONS: set<(RunStatus, RunStatus)> := {
    (Queued, Running),
    (Running, Completed),
    (Running, Failed),
    (Running, AwaitingApproval),
    (Running, Queued),
    (AwaitingApproval, Queued),
    (AwaitingApproval, Rejected),
    (Queued, Cancelled),
    (AwaitingApproval, Cancelled)
  }

  /** The moves, state by state: the terminal states are those without one. */
  lemma LegalMoves(from: RunStatus, to: RunStatus)
    ensures (from, to) in ALLOWED_TRANSITIONS <==>
              match from
              case Queued => to == Running || to == Cancelled
              case Running => to == Completed || to == Failed || to == AwaitingApproval || to == Queued
              case AwaitingApproval => to == Queued || to == Rejected || to == Cancelled
              case _ => false
    ensures from in TERMINAL <==> forall s: RunStatus :: (from, s) !in ALLOWED_TRANSITIONS
  {
    if from !in TERMINAL {
      assert (from, if from == Running then Failed else Cancelled) in ALLOWED_TRANSITIONS;
    }
  }

  /** What a failing transaction raises. */
  datatype Error =
    | IllegalTransition  // the pair is not allowed, or the row was not in the expected state
    | NoPendingApproval  // LookupError of approvals.decide
    | Constraint         // primary key, unique or foreign key violation

  type RunId = nat
  type ScheduleId = nat
  type WorkerId = string
  type Json = string
  /** Seconds. */
  type Time = int

  const MINUTE: Time := 60

  datatype Trigger = Api | Scheduled | Cli | Webhook | Chat

  datatype Row = Row(
    agent: string,
    status: RunStatus,
    trigger: Trigger,
    params: Json,
    scheduleId: Option<ScheduleId>,
    attempts: int,
    maxAttempts: int,
    availableAt: Time,
    lockedBy: Option<WorkerId>,
    leaseExpiresAt: Option<Time>,
    sessionId: Option<string>,
    result: Option<string>,
    error: Option<string>,
    costUsd: Option<real>,
    createdAt: Time,
    startedAt: Option<Time>,
    finishedAt: Option<Time>,
    tags: Json)

  /** The rest of a status_change payload, beside `from` and `to`. */
  datatype Detail =
    | Enqueued(trigger: Trigger)
    | ByWorker(worker: WorkerId)
    | Outcome(error: Option<string>)
    | LeaseExpired
    | ConsentAsked(approval: nat, action: string)
    | Decision(via: string, note: Option<string>)

  datatype Event =
    | StatusChange(from: Option<RunStatus>, to: RunStatus, detail: Detail)
    | Message(kind: string, payload: Json)

  /** `Declined` is the row status 'rejected', renamed apart from the run status. */
  datatype ApprovalStatus = Pending | Approved | Declined | Expired

  datatype Approval = Approval(
    action: string,
    payload: Json,
    status: ApprovalStatus,
    requestedAt: Time,
    decidedAt: Option<Time>,
    decidedVia: Option<string>,
    note: Option<string>)

  datatype Schedule = Schedule(
    agent: string,
    cronExpr: string,
    timezone: string,
    params: Json,
    enabled: bool,
    nextRunAt: Time,
    lastRunAt: Option<Time>,
    lastRunId: Option<RunId>)

  /** Everything the database holds about one run: its row, its event rows in id order, its
      approval rows in request order. */
  datatype Cell = Cell(row: Row, events: seq<Event>, approvals: seq<Approval>)

  datatype Db = Db(cells: map<RunId, Cell>, schedules: map<ScheduleId, Schedule>, clock: Time)

  /** The columns and the event a status move writes; `extra` is the extra SET list. */
  function Moved(c: Cell, to: RunStatus, extra: Row -> Row, detail: Detail): Cell {
    Cell(extra(c.row).(status := to), c.events + [StatusChange(Some(c.row.status), to, detail)], c.approvals)
  }
}
