/** The scheduler's tick in two phases: SELECT ... FOR UPDATE SKIP LOCKED takes the due rows, the
    commit enqueues their runs and advances them. */
module SkipLockedTick {
  import opened Wrappers
  import opened Models
  import opened Scheduler
  import opened System
  import opened Schedules

  /** A tick transaction that has locked its due rows; `began` is its now(). */
  datatype Ticker = Ticker(began: Time, rows: set<ScheduleId>)

  datatype State = State(s: Sys, tickers: map<WorkerId, Ticker>)

  datatype Move =
    | Lock(worker: WorkerId)
    | Commit(worker: WorkerId, fires: seq<Fire>)
    | Abort(worker: WorkerId)
    | Flip(schedule: ScheduleId)              // toggle_schedule, which waits for the row lock
    | Other(cells: map<RunId, Cell>)          // transactions on runs
    | Pass(seconds: nat)

  ghost function LockedRows(p: State): set<ScheduleId> {
    set w, sid | w in p.tickers && sid in p.tickers[w].rows :: sid
  }

  /** The system as a transaction sees it: now() is when it began. */
  function AsOf(s: Sys, began: Time): Sys {
    s.(db := s.db.(clock := began))
  }

  /** The fires of a commit are its locked rows, each once, with fresh run ids. */
  ghost predicate FiresRows(p: State, w: WorkerId, fires: seq<Fire>)
    requires w in p.tickers
  {
    && Fireable(AsOf(p.s, p.tickers[w].began).db, fires)
    && (forall i :: 0 <= i < |fires| ==> fires[i].schedule in p.tickers[w].rows)
    && (forall sid :: sid in p.tickers[w].rows ==> exists i :: 0 <= i < |fires| && fires[i].schedule == sid)
  }

  ghost predicate Enabled(p: State, move: Move) {
    match move
    case Lock(w) => w !in p.tickers
    case Commit(w, fires) => w in p.tickers && FiresRows(p, w, fires) && p.s.db.schedules.Keys <= p.s.firings.Keys
    case Abort(w) => w in p.tickers
    case Flip(sid) => sid !in LockedRows(p)
    case Other(cells) => SameScheduled(p.s.db.cells, cells)
    case Pass(_) => true
  }

  ghost function Next(env: Env, p: State, move: Move): State
    requires Enabled(p, move)
  {
    match move
    case Lock(w) => p.(tickers := p.tickers[w := Ticker(p.s.db.clock, Due(p.s.db, LockedRows(p)))])
    case Commit(w, fires) =>
      State(AsOf(TickSys(env, AsOf(p.s, p.tickers[w].began), fires), p.s.db.clock), p.tickers - {w})
    case Abort(w) => p.(tickers := p.tickers - {w})
    case Flip(sid) => p.(s := p.s.(db := ToggleRow(p.s.db, sid)))
    case Other(cells) => p.(s := p.s.(db := p.s.db.(cells := cells)))
    case Pass(seconds) => p.(s := AsOf(p.s, p.s.db.clock + seconds))
  }

  /** No row is locked twice, and a locked row is as due as when it was taken. */
  ghost predicate Sound(p: State) {
    && (forall w, sid :: w in p.tickers && sid in p.tickers[w].rows ==>
          sid in p.s.db.schedules && IsDue(p.s.db.schedules[sid], p.tickers[w].began))
    && (forall a, b :: a in p.tickers && b in p.tickers && a != b ==> p.tickers[a].rows !! p.tickers[b].rows)
  }

  lemma RowsLocked(p: State, w: WorkerId, sid: ScheduleId)
    requires w in p.tickers && sid in p.tickers[w].rows
    ensures sid in LockedRows(p)
  {
  }

  lemma LockStays(env: Env, p: State, w: WorkerId)
    requires Sound(p) && Enabled(p, Lock(w))
    ensures Sound(Next(env, p, Lock(w)))
  {
    forall a, sid | a in p.tickers && sid in p.tickers[a].rows {
      RowsLocked(p, a, sid);
    }
  }

  lemma OtherRowsStay(env: Env, p: State, q: State, w: WorkerId, fires: seq<Fire>, a: WorkerId, sid: ScheduleId)
    requires Sound(p) && Enabled(p, Commit(w, fires)) && q == Next(env, p, Commit(w, fires))
    requires a in p.tickers && a != w && sid in p.tickers[a].rows
    ensures sid in q.s.db.schedules && q.s.db.schedules[sid] == p.s.db.schedules[sid]
  {
    assert p.tickers[a].rows !! p.tickers[w].rows;
    TickSkips(env, AsOf(p.s, p.tickers[w].began), fires, sid);
  }

  /** Some tickers gone, the rows of the others as they were. */
  lemma FewerTickers(p: State, q: State)
    requires Sound(p)
    requires forall a :: a in q.tickers ==> a in p.tickers && q.tickers[a] == p.tickers[a]
    requires forall a, sid :: a in q.tickers && sid in q.tickers[a].rows ==>
               sid in q.s.db.schedules && q.s.db.schedules[sid] == p.s.db.schedules[sid]
    ensures Sound(q)
  {
  }

  lemma CommitStays(env: Env, p: State, w: WorkerId, fires: seq<Fire>)
    requires Sound(p) && Enabled(p, Commit(w, fires))
    ensures Sound(Next(env, p, Commit(w, fires)))
  {
    var q := Next(env, p, Commit(w, fires));
    forall a, sid | a in q.tickers && sid in q.tickers[a].rows {
      OtherRowsStay(env, p, q, w, fires, a, sid);
    }
    FewerTickers(p, q);
  }

  lemma StaysSound(env: Env, p: State, move: Move)
    requires Sound(p) && Enabled(p, move)
    ensures Sound(Next(env, p, move))
  {
    match move {
      case Lock(w) => LockStays(env, p, w);
      case Commit(w, fires) => CommitStays(env, p, w, fires);
      case Flip(flipped) =>
        forall a, sid | a in p.tickers && sid in p.tickers[a].rows {
          RowsLocked(p, a, sid);
        }
      case _ => FewerTickers(p, Next(env, p, move));
    }
  }

  /** A commit is one atomic tick, at the moment its transaction began, that skipped nothing but
      rows other than its own: its rows are still due, whatever happened since they were locked. */
  lemma CommitIsAtomicTick(p: State, w: WorkerId, fires: seq<Fire>)
    requires Sound(p) && w in p.tickers && FiresRows(p, w, fires)
    ensures var v := AsOf(p.s, p.tickers[w].began).db;
            CoversDue(v, Due(v, {}) - p.tickers[w].rows, fires)
  {
  }

  /** Every schedule's log stays exact whatever ticks, toggles and runs interleave. */
  lemma LogsStay(env: Env, p: State, move: Move)
    requires SchedulesOk(env, p.s) && Sound(p) && Enabled(p, move) && Regular(env.cal)
    ensures SchedulesOk(env, Next(env, p, move).s)
  {
    match move {
      case Commit(w, fires) => CommitLogs(env, p, w, fires);
      case Flip(sid) => FlipLogs(env, p.s, sid);
      case Other(cells) => QuietKeeps(env, p.s, p.s.(db := p.s.db.(cells := cells)));
      case Pass(seconds) => Reclocked(env, p.s, AsOf(p.s, p.s.db.clock + seconds));
      case _ =>
    }
  }

  lemma FlipLogs(env: Env, s: Sys, sid: ScheduleId)
    requires SchedulesOk(env, s)
    ensures SchedulesOk(env, s.(db := ToggleRow(s.db, sid)))
  {
    FlagsKeep(env, s, s.(db := ToggleRow(s.db, sid)));
  }

  lemma CommitLogs(env: Env, p: State, w: WorkerId, fires: seq<Fire>)
    requires SchedulesOk(env, p.s) && Sound(p) && Enabled(p, Commit(w, fires)) && Regular(env.cal)
    ensures SchedulesOk(env, Next(env, p, Commit(w, fires)).s)
  {
    var at := AsOf(p.s, p.tickers[w].began);
    Reclocked(env, p.s, at);
    RowsAreDue(p, w, fires);
    TickKeepsSchedules(env, at, fires);
    Reclocked(env, TickSys(env, at, fires), Next(env, p, Commit(w, fires)).s);
  }

  lemma RowsAreDue(p: State, w: WorkerId, fires: seq<Fire>)
    requires Sound(p) && w in p.tickers && FiresRows(p, w, fires)
    ensures forall i :: 0 <= i < |fires| ==>
              && fires[i].schedule in p.s.db.schedules
              && p.s.db.schedules[fires[i].schedule].nextRunAt <= p.tickers[w].began
  {
  }

  lemma Reclocked(env: Env, s: Sys, t: Sys)
    requires SchedulesOk(env, s) && t == AsOf(s, t.db.clock)
    ensures SchedulesOk(env, t)
  {
    QuietKeeps(env, s, t);
  }

  ghost predicate Playable(env: Env, p: State, moves: seq<Move>)
    decreases |moves|
  {
    moves != [] ==> Enabled(p, moves[0]) && Playable(env, Next(env, p, moves[0]), moves[1..])
  }

  ghost function Play(env: Env, p: State, moves: seq<Move>): State
    requires Playable(env, p, moves)
    decreases |moves|
  {
    if moves == [] then p else Play(env, Next(env, p, moves[0]), moves[1..])
  }

  /** Concurrent ticks never fire a schedule twice for one instant: between two firings lies an
      instant of the expression, and each firing enqueued one run of its own. */
  lemma {:induction false} ConcurrentTicksFireOnce(env: Env, p: State, moves: seq<Move>, sid: ScheduleId,
                                                   i: nat, j: nat)
    requires Regular(env.cal) && Sound(p) && SchedulesOk(env, p.s) && Playable(env, p, moves)
    requires var q := Play(env, p, moves); sid in q.s.db.schedules && sid in q.s.firings && i < j < |q.s.firings[sid]|
    ensures var q := Play(env, p, moves);
            && Sound(q) && SchedulesOk(env, q.s)
            && (exists t: Time ::
                  Instant(env.cal, q.s.db.schedules[sid], t) && q.s.firings[sid][i].at < t <= q.s.firings[sid][j].at)
            && q.s.firings[sid][i].run != q.s.firings[sid][j].run
    decreases |moves|
  {
    if moves == [] {
      assert LogOk(env.cal, p.s.db.schedules[sid], p.s.firings[sid]) && RunsLogged(p.s.db.cells, sid, p.s.firings[sid]);
      assert Instant(env.cal, p.s.db.schedules[sid], p.s.firings[sid][j].due);
    } else {
      StaysSound(env, p, moves[0]);
      LogsStay(env, p, moves[0]);
      ConcurrentTicksFireOnce(env, Next(env, p, moves[0]), moves[1..], sid, i, j);
    }
  }
}
