/** The claim query in two phases: FOR UPDATE SKIP LOCKED takes a row lock, the commit writes.
    Between the two, other claimers skip the row and every other transaction leaves it alone. */
module SkipLocked {
  import opened Wrappers
  import opened Models
  import opened Queue
  import opened Sets

  /** A claim transaction; `began` is its now(). */
  datatype Claimer =
    | Fresh
    | Holding(id: RunId, began: Time)
    | Done(got: Option<RunId>)

  datatype State = State(v: Db, claimers: map<WorkerId, Claimer>)

  datatype Move =
    | Lock(worker: WorkerId, pick: Option<RunId>)
    | Commit(worker: WorkerId)
    | Abort(worker: WorkerId)              // the connection is lost before the commit
    | Other(id: RunId, cell: Cell)         // any other transaction on an unlocked or new row
    | Elapse(seconds: nat)

  ghost function Locked(p: State): set<RunId> {
    set w | w in p.claimers && p.claimers[w].Holding? :: p.claimers[w].id
  }

  ghost predicate Enabled(p: State, move: Move) {
    match move
    case Lock(w, None) => w in p.claimers && p.claimers[w].Fresh? && Candidates(p.v, Locked(p)) == {}
    case Lock(w, Some(id)) => w in p.claimers && p.claimers[w].Fresh? && Oldest(p.v, Locked(p), id)
    case Commit(w) => w in p.claimers && p.claimers[w].Holding?
    case Abort(w) => w in p.claimers && p.claimers[w].Holding?
    case Other(id, _) => id !in Locked(p)
    case Elapse(_) => true
  }

  ghost function Next(p: State, lease: int, move: Move): State
    requires Enabled(p, move)
    requires Sound(p)
  {
    match move
    case Lock(w, None) => p.(claimers := p.claimers[w := Done(None)])
    case Lock(w, Some(id)) => p.(claimers := p.claimers[w := Holding(id, p.v.clock)])
    case Commit(w) =>
      var Holding(id, began) := p.claimers[w];
      State(p.v.(cells := p.v.cells[id := ClaimCell(p.v.cells[id], w, lease, began)]), p.claimers[w := Done(Some(id))])
    case Abort(w) => p.(claimers := p.claimers[w := Done(None)])
    case Other(id, cell) => p.(v := p.v.(cells := p.v.cells[id := cell]))
    case Elapse(seconds) => p.(v := p.v.(clock := p.v.clock + seconds))
  }

  /** Rows are held by one claimer each and are still waiting to be claimed. */
  ghost predicate Sound(p: State) {
    && (forall w :: w in p.claimers && p.claimers[w].Holding? ==>
          p.claimers[w].id in p.v.cells && Claimable(p.v.cells[p.claimers[w].id].row, p.v.clock))
    && (forall a, b ::
          a in p.claimers && b in p.claimers && p.claimers[a].Holding? && p.claimers[b].Holding? && a != b ==>
          p.claimers[a].id != p.claimers[b].id)
  }

  lemma HolderLocks(p: State, w: WorkerId)
    requires w in p.claimers && p.claimers[w].Holding?
    ensures p.claimers[w].id in Locked(p)
  {
  }

  /** No two claimers ever hold the same row, and a held row stays claimable until its commit:
      it is handed out once. */
  lemma StaysSound(p: State, lease: int, move: Move)
    requires Sound(p) && Enabled(p, move)
    ensures Sound(Next(p, lease, move))
  {
    forall w | w in p.claimers && p.claimers[w].Holding? {
      HolderLocks(p, w);
    }
  }

  // ---- refinement of the atomic claim -------------------------------------

  ghost function HolderOf(p: State, id: RunId): WorkerId
    requires id in Locked(p)
    ensures var w := HolderOf(p, id); w in p.claimers && p.claimers[w].Holding? && p.claimers[w].id == id
  {
    var w :| w in p.claimers && p.claimers[w].Holding? && p.claimers[w].id == id;
    w
  }

  /** The queue that serves its callers one by one. `held` are the rows of claimers whose connection
      will be lost: their claims never happen, but until the loss they are passed over. */
  datatype Plain = Plain(v: Db, held: map<WorkerId, RunId>)

  /** The rows held by claimers of `doomed`. */
  ghost function Held(p: State, doomed: set<WorkerId>): map<WorkerId, RunId> {
    map w | w in p.claimers && p.claimers[w].Holding? && w in doomed :: p.claimers[w].id
  }

  /** The database as if every claim but the doomed had happened at once when its row was locked. */
  ghost function Atomic(p: State, lease: int, doomed: set<WorkerId>): Db {
    p.v.(cells := map id | id in p.v.cells :: Look(p, lease, doomed, id))
  }

  ghost function Look(p: State, lease: int, doomed: set<WorkerId>, id: RunId): Cell
    requires id in p.v.cells
  {
    if id in Locked(p) && HolderOf(p, id) !in doomed
    then ClaimCell(p.v.cells[id], HolderOf(p, id), lease, p.claimers[HolderOf(p, id)].began)
    else p.v.cells[id]
  }

  lemma AtomicIs(p: State, lease: int, doomed: set<WorkerId>, v: Db)
    requires v.cells.Keys == p.v.cells.Keys && v == p.v.(cells := v.cells)
    requires forall id :: id in p.v.cells ==> Look(p, lease, doomed, id) == v.cells[id]
    ensures Atomic(p, lease, doomed) == v
  {
    assert Atomic(p, lease, doomed).cells == v.cells;
  }

  ghost function Visible(p: State, lease: int, doomed: set<WorkerId>): Plain {
    Plain(Atomic(p, lease, doomed), Held(p, doomed))
  }

  /** An atomic claim that passes over some rows. */
  ghost predicate AtomicClaim(v: Db, w: Db, skipped: set<RunId>, worker: WorkerId, lease: int, got: Option<RunId>) {
    match got
    case None => Candidates(v, skipped) == {} && w == v
    case Some(id) =>
      Oldest(v, skipped, id) && w == v.(cells := v.cells[id := ClaimCell(v.cells[id], worker, lease, v.clock)])
  }

  /** A doomed claimer holds an oldest row for a while; no other row is touched. */
  ghost predicate PassingHold(x: Plain, y: Plain, worker: WorkerId, id: RunId) {
    Oldest(x.v, x.held.Values, id) && y == x.(held := x.held[worker := id])
  }

  lemma HeldRow(p: State, doomed: set<WorkerId>, id: RunId)
    requires Sound(p)
    ensures id in Held(p, doomed).Values <==> id in Locked(p) && HolderOf(p, id) in doomed
  {
    if id in Held(p, doomed).Values {
      var w :| w in Held(p, doomed) && Held(p, doomed)[w] == id;
      HolderLocks(p, w);
      assert HolderOf(p, id) == w;
    }
    if id in Locked(p) && HolderOf(p, id) in doomed {
      assert Held(p, doomed)[HolderOf(p, id)] == id;
    }
  }

  lemma SameCandidates(p: State, lease: int, doomed: set<WorkerId>)
    requires Sound(p)
    ensures Candidates(Atomic(p, lease, doomed), Held(p, doomed).Values) == Candidates(p.v, Locked(p))
  {
    forall id
      ensures id in Candidates(Atomic(p, lease, doomed), Held(p, doomed).Values) <==> id in Candidates(p.v, Locked(p))
    {
      HeldRow(p, doomed, id);
    }
  }

  lemma LockedAfterLock(p: State, q: State, w: WorkerId, id: RunId)
    requires Sound(p) && w in p.claimers && p.claimers[w].Fresh?
    requires q == p.(claimers := p.claimers[w := Holding(id, p.v.clock)])
    ensures Locked(q) == Locked(p) + {id}
  {
    forall x | x in Locked(p)
      ensures x in Locked(q)
    {
      var h := HolderOf(p, x);
      assert q.claimers[h] == p.claimers[h];
    }
    assert q.claimers[w].id == id;
  }

  /** A claimer that neither held nor holds a row changes no lock. */
  lemma LockedSame(p: State, q: State, w: WorkerId)
    requires w in p.claimers && !p.claimers[w].Holding?
    requires w in q.claimers && !q.claimers[w].Holding? && q.claimers == p.claimers[w := q.claimers[w]]
    ensures Locked(q) == Locked(p)
  {
    forall x: WorkerId | x in p.claimers
      ensures x in q.claimers && (p.claimers[x].Holding? <==> q.claimers[x].Holding?)
      ensures p.claimers[x].Holding? ==> q.claimers[x] == p.claimers[x]
    {
    }
    forall id
      ensures id in Locked(p) <==> id in Locked(q)
    {
      if x: WorkerId :| x in p.claimers && p.claimers[x].Holding? && p.claimers[x].id == id {
        assert q.claimers[x] == p.claimers[x];
      }
      if x: WorkerId :| x in q.claimers && q.claimers[x].Holding? && q.claimers[x].id == id {
        assert p.claimers[x] == q.claimers[x];
      }
    }
  }

  lemma LockedAfterRelease(p: State, q: State, w: WorkerId)
    requires Sound(p) && w in p.claimers && p.claimers[w].Holding?
    requires w in q.claimers && !q.claimers[w].Holding? && q.claimers == p.claimers[w := q.claimers[w]]
    ensures Locked(q) == Locked(p) - {p.claimers[w].id}
  {
    forall id
      ensures id in Locked(q) <==> id in Locked(p) && id != p.claimers[w].id
    {
      if x: WorkerId :| x in p.claimers && p.claimers[x].Holding? && p.claimers[x].id == id && x != w {
        assert q.claimers[x] == p.claimers[x];
      }
      if x: WorkerId :| x in q.claimers && q.claimers[x].Holding? && q.claimers[x].id == id {
        assert p.claimers[x] == q.claimers[x];
      }
    }
  }

  lemma AtomicHeld(p: State, lease: int, doomed: set<WorkerId>, w: WorkerId)
    requires Sound(p) && w in p.claimers && p.claimers[w].Holding?
    ensures var id := p.claimers[w].id;
            Look(p, lease, doomed, id)
            == if w in doomed then p.v.cells[id] else ClaimCell(p.v.cells[id], w, lease, p.claimers[w].began)
  {
    HolderLocks(p, w);
    assert HolderOf(p, p.claimers[w].id) == w;
  }

  /** A row that is the same, and held the same if at all, looks the same. */
  lemma SameLook(p: State, q: State, lease: int, doomed: set<WorkerId>, id: RunId)
    requires Sound(p) && Sound(q) && id in p.v.cells && id in q.v.cells && q.v.cells[id] == p.v.cells[id]
    requires id in Locked(p) <==> id in Locked(q)
    requires id in Locked(p) ==> var h := HolderOf(p, id); h in q.claimers && q.claimers[h] == p.claimers[h]
    ensures Look(q, lease, doomed, id) == Look(p, lease, doomed, id)
  {
    if id in Locked(p) {
      AtomicHeld(p, lease, doomed, HolderOf(p, id));
      AtomicHeld(q, lease, doomed, HolderOf(p, id));
    }
  }

  /** One step of the queue that serves its callers one by one: a lock is the claim, unless its claimer is
      doomed, its commit is nothing, and a lost connection gives the row back. */
  ghost predicate AtomicStep(x: Plain, y: Plain, lease: int, doomed: set<WorkerId>, move: Move) {
    && x.held.Keys <= doomed
    && match move
       case Lock(w, pick) =>
         if w in doomed && pick.Some? then PassingHold(x, y, w, pick.value)
         else AtomicClaim(x.v, y.v, x.held.Values, w, lease, pick) && y.held == x.held
       case Commit(_) => y == x
       case Abort(w) => y == x.(held := x.held - {w})
       case Other(id, cell) => id !in x.held.Values && y == x.(v := x.v.(cells := x.v.cells[id := cell]))
       case Elapse(seconds) => y == x.(v := x.v.(clock := x.v.clock + seconds))
  }

  /** A claimer that finds nothing changes nothing visible. */
  lemma LookAfterNone(p: State, q: State, lease: int, doomed: set<WorkerId>, w: WorkerId)
    requires Sound(p) && Sound(q) && w in p.claimers && p.claimers[w].Fresh?
    requires q == p.(claimers := p.claimers[w := Done(None)])
    ensures forall id :: id in p.v.cells ==> Look(q, lease, doomed, id) == Look(p, lease, doomed, id)
    ensures Held(q, doomed) == Held(p, doomed)
  {
    LockedSame(p, q, w);
    forall id | id in p.v.cells
      ensures Look(q, lease, doomed, id) == Look(p, lease, doomed, id)
    {
      SameLook(p, q, lease, doomed, id);
    }
  }

  lemma NoneIsAtomic(p: State, lease: int, doomed: set<WorkerId>, w: WorkerId)
    requires Sound(p) && Enabled(p, Lock(w, None))
    ensures AtomicStep(Visible(p, lease, doomed), Visible(Next(p, lease, Lock(w, None)), lease, doomed), lease, doomed,
                       Lock(w, None))
  {
    var q := Next(p, lease, Lock(w, None));
    SameCandidates(p, lease, doomed);
    StaysSound(p, lease, Lock(w, None));
    LookAfterNone(p, q, lease, doomed, w);
    AtomicIs(q, lease, doomed, Atomic(p, lease, doomed));
  }

  /** What a lock taken on a run leaves visible. */
  lemma LookAfterLock(p: State, q: State, lease: int, doomed: set<WorkerId>, w: WorkerId, id: RunId)
    requires Sound(p) && Sound(q) && w in p.claimers && p.claimers[w].Fresh? && id in p.v.cells && id !in Locked(p)
    requires q == p.(claimers := p.claimers[w := Holding(id, p.v.clock)])
    ensures Look(q, lease, doomed, id)
         == if w in doomed then p.v.cells[id] else ClaimCell(p.v.cells[id], w, lease, p.v.clock)
    ensures forall x :: x in p.v.cells && x != id ==> Look(q, lease, doomed, x) == Look(p, lease, doomed, x)
    ensures Held(q, doomed) == if w in doomed then Held(p, doomed)[w := id] else Held(p, doomed)
  {
    LockedAfterLock(p, q, w, id);
    AtomicHeld(q, lease, doomed, w);
    forall x | x in p.v.cells && x != id
      ensures Look(q, lease, doomed, x) == Look(p, lease, doomed, x)
    {
      SameLook(p, q, lease, doomed, x);
    }
  }

  /** Taking the lock is the atomic claim of the oldest run but those held by the doomed. */
  lemma LockIsAtomic(p: State, lease: int, doomed: set<WorkerId>, w: WorkerId, id: RunId)
    requires Sound(p) && Enabled(p, Lock(w, Some(id)))
    ensures AtomicStep(Visible(p, lease, doomed), Visible(Next(p, lease, Lock(w, Some(id))), lease, doomed), lease,
                       doomed, Lock(w, Some(id)))
  {
    var q, v := Next(p, lease, Lock(w, Some(id))), Atomic(p, lease, doomed);
    StaysSound(p, lease, Lock(w, Some(id)));
    OldestLooksOldest(p, lease, doomed, id);
    LookAfterLock(p, q, lease, doomed, w, id);
    if w in doomed {
      AtomicIs(q, lease, doomed, v);
    } else {
      AtomicIs(q, lease, doomed, v.(cells := v.cells[id := ClaimCell(v.cells[id], w, lease, v.clock)]));
    }
  }

  lemma OldestLooksOldest(p: State, lease: int, doomed: set<WorkerId>, id: RunId)
    requires Sound(p) && Oldest(p.v, Locked(p), id)
    ensures Oldest(Atomic(p, lease, doomed), Held(p, doomed).Values, id)
    ensures Atomic(p, lease, doomed).cells[id] == p.v.cells[id]
  {
    SameCandidates(p, lease, doomed);
  }

  /** After one claimer let go of its row, the other rows are held as before. */
  lemma Released(p: State, q: State, lease: int, doomed: set<WorkerId>, w: WorkerId, id: RunId)
    requires Sound(p) && Sound(q) && w in p.claimers && p.claimers[w].Holding?
    requires w in q.claimers && !q.claimers[w].Holding? && q.claimers == p.claimers[w := q.claimers[w]]
    requires id in p.v.cells && id in q.v.cells && (id != p.claimers[w].id ==> q.v.cells[id] == p.v.cells[id])
    ensures Look(q, lease, doomed, id)
         == if id == p.claimers[w].id then q.v.cells[id] else Look(p, lease, doomed, id)
  {
    LockedAfterRelease(p, q, w);
    if id != p.claimers[w].id {
      SameLook(p, q, lease, doomed, id);
    }
  }

  lemma HeldAfterRelease(p: State, q: State, doomed: set<WorkerId>, w: WorkerId)
    requires w in p.claimers && w in q.claimers && !q.claimers[w].Holding?
    requires q.claimers == p.claimers[w := q.claimers[w]]
    ensures Held(q, doomed) == Held(p, doomed) - {w}
  {
  }

  /** A commit changes nothing that the lock had not, and a doomed claim none but the hold. */
  lemma EndIsAtomic(p: State, lease: int, doomed: set<WorkerId>, move: Move)
    requires Sound(p) && Enabled(p, move)
    requires match move case Commit(w) => w !in doomed case Abort(w) => w in doomed case _ => false
    ensures AtomicStep(Visible(p, lease, doomed), Visible(Next(p, lease, move), lease, doomed), lease, doomed, move)
  {
    var q, w := Next(p, lease, move), move.worker;
    StaysSound(p, lease, move);
    AtomicHeld(p, lease, doomed, w);
    forall id | id in p.v.cells
      ensures Look(q, lease, doomed, id) == Look(p, lease, doomed, id)
    {
      Released(p, q, lease, doomed, w, id);
    }
    AtomicIs(q, lease, doomed, Atomic(p, lease, doomed));
    HeldAfterRelease(p, q, doomed, w);
    if move.Commit? {
      assert Held(p, doomed) - {w} == Held(p, doomed);
    }
  }

  /** The other transactions do what they do. */
  lemma RestIsAtomic(p: State, lease: int, doomed: set<WorkerId>, move: Move)
    requires Sound(p) && Enabled(p, move) && (move.Other? || move.Elapse?)
    ensures AtomicStep(Visible(p, lease, doomed), Visible(Next(p, lease, move), lease, doomed), lease, doomed, move)
  {
    var q, v := Next(p, lease, move), Atomic(p, lease, doomed);
    StaysSound(p, lease, move);
    assert Locked(q) == Locked(p);
    if move.Other? {
      HeldRow(p, doomed, move.id);
    }
    forall x | x in p.v.cells && q.v.cells[x] == p.v.cells[x]
      ensures Look(q, lease, doomed, x) == Look(p, lease, doomed, x)
    {
      SameLook(p, q, lease, doomed, x);
    }
    if move.Other? {
      AtomicIs(q, lease, doomed, v.(cells := v.cells[move.id := move.cell]));
    } else {
      AtomicIs(q, lease, doomed, v.(clock := v.clock + move.seconds));
    }
  }

  lemma MoveIsAtomic(p: State, lease: int, doomed: set<WorkerId>, move: Move)
    requires Sound(p) && Enabled(p, move)
    requires (move.Commit? ==> move.worker !in doomed) && (move.Abort? ==> move.worker in doomed)
    ensures AtomicStep(Visible(p, lease, doomed), Visible(Next(p, lease, move), lease, doomed), lease, doomed, move)
  {
    match move {
      case Lock(w, None) => NoneIsAtomic(p, lease, doomed, w);
      case Lock(w, Some(id)) => LockIsAtomic(p, lease, doomed, w, id);
      case Commit(_) => EndIsAtomic(p, lease, doomed, move);
      case Abort(_) => EndIsAtomic(p, lease, doomed, move);
      case _ => RestIsAtomic(p, lease, doomed, move);
    }
  }

  /** A move that makes a claimer say it got a run has claimed that run for it; a lost connection gets none. */
  lemma GotByCommit(p: State, lease: int, move: Move, w: WorkerId, id: RunId)
    requires Sound(p) && Enabled(p, move) && w in p.claimers && p.claimers[w] != Done(Some(id))
    ensures var q := Next(p, lease, move);
            w in q.claimers && q.claimers[w] == Done(Some(id)) <==>
              && move == Commit(w) && p.claimers[w].Holding? && p.claimers[w].id == id
              && q.v.cells == p.v.cells[id := ClaimCell(p.v.cells[id], w, lease, p.claimers[w].began)]
  {
  }

  // ---- whole plays ----------------------------------------------------------

  ghost predicate Playable(p: State, lease: int, moves: seq<Move>)
    decreases |moves|
  {
    && Sound(p)
    && (moves != [] ==> Enabled(p, moves[0]) && Playable(Next(p, lease, moves[0]), lease, moves[1..]))
  }

  ghost function Play(p: State, lease: int, moves: seq<Move>): State
    requires Playable(p, lease, moves)
    decreases |moves|
  {
    if moves == [] then p else Play(Next(p, lease, moves[0]), lease, moves[1..])
  }

  ghost predicate AtomicRun(x: Plain, y: Plain, lease: int, doomed: set<WorkerId>, moves: seq<Move>)
    decreases |moves|
  {
    if moves == [] then x == y
    else exists m: Plain :: AtomicStep(x, m, lease, doomed, moves[0]) && AtomicRun(m, y, lease, doomed, moves[1..])
  }

  ghost predicate NoneHolds(p: State) {
    forall w :: w in p.claimers ==> !p.claimers[w].Holding?
  }

  /** The claimers whose connection is lost while they hold a row. */
  ghost function Doomed(moves: seq<Move>): set<WorkerId> {
    set move | move in moves && move.Abort? :: move.worker
  }

  lemma {:induction false} PlayIsAtomic(p: State, lease: int, doomed: set<WorkerId>, moves: seq<Move>)
    requires Playable(p, lease, moves)
    requires forall move <- moves ::
               (move.Commit? ==> move.worker !in doomed) && (move.Abort? ==> move.worker in doomed)
    ensures AtomicRun(Visible(p, lease, doomed), Visible(Play(p, lease, moves), lease, doomed), lease, doomed, moves)
    decreases |moves|
  {
    if moves != [] {
      assert moves[0] in moves;
      MoveIsAtomic(p, lease, doomed, moves[0]);
      PlayIsAtomic(Next(p, lease, moves[0]), lease, doomed, moves[1..]);
    }
  }

  /** A claimer that is done neither commits nor loses its row any more. */
  lemma {:induction false} DoneIsOver(p: State, lease: int, moves: seq<Move>, w: WorkerId)
    requires Playable(p, lease, moves) && w in p.claimers && p.claimers[w].Done?
    ensures Commit(w) !in moves && Abort(w) !in moves
    decreases |moves|
  {
    if moves != [] {
      DoneIsOver(Next(p, lease, moves[0]), lease, moves[1..], w);
    }
  }

  /** A claim either commits or is lost. */
  lemma {:induction false} EndsOneWay(p: State, lease: int, moves: seq<Move>, w: WorkerId)
    requires Playable(p, lease, moves)
    ensures !(Commit(w) in moves && Abort(w) in moves)
    decreases |moves|
  {
    if moves != [] {
      if moves[0] == Commit(w) || moves[0] == Abort(w) {
        DoneIsOver(Next(p, lease, moves[0]), lease, moves[1..], w);
      } else {
        EndsOneWay(Next(p, lease, moves[0]), lease, moves[1..], w);
      }
    }
  }

  /** Any play, from claimers that have not begun to claimers that are done, is a run of atomic claims
      among the other transactions, one where each lock was taken. A claim takes an oldest available run
      but those held at that moment by a claimer whose connection will be lost; if none is, it is FIFO. */
  lemma TwoPhasesAreAtomic(p: State, lease: int, moves: seq<Move>)
    requires Playable(p, lease, moves) && NoneHolds(p) && NoneHolds(Play(p, lease, moves))
    ensures AtomicRun(Plain(p.v, map[]), Plain(Play(p, lease, moves).v, map[]), lease, Doomed(moves), moves)
  {
    var doomed := Doomed(moves);
    forall move <- moves
      ensures (move.Commit? ==> move.worker !in doomed) && (move.Abort? ==> move.worker in doomed)
    {
      if move.Commit? {
        EndsOneWay(p, lease, moves, move.worker);
      }
    }
    PlayIsAtomic(p, lease, doomed, moves);
    NothingHeld(p, lease, doomed);
    NothingHeld(Play(p, lease, moves), lease, doomed);
  }

  lemma NothingHeld(p: State, lease: int, doomed: set<WorkerId>)
    requires NoneHolds(p)
    ensures Visible(p, lease, doomed) == Plain(p.v, map[])
  {
    assert Locked(p) == {};
    assert Atomic(p, lease, doomed).cells == p.v.cells;
  }

  // ---- m claimers over n runs ---------------------------------------------

  ghost predicate ClaimsOnly(moves: seq<Move>) {
    forall move <- moves :: move.Lock? || move.Commit?
  }

  predicate Serves(c: Claimer) {
    c.Holding? || (c.Done? && c.got.Some?)
  }

  /** Claimers that have, or will have, a run. */
  ghost function Served(p: State): set<WorkerId> {
    set w | w in p.claimers && Serves(p.claimers[w])
  }

  ghost function Free(p: State): set<RunId> {
    Candidates(p.v, Locked(p))
  }

  predicate Unserved(c: Claimer) {
    c == Done(None)
  }

  function RunServed(c: Claimer): RunId
    requires Serves(c)
  {
    if c.Holding? then c.id else c.got.value
  }

  /** The runs handed out are distinct, and those already committed are no longer queued. */
  ghost predicate HandedOnce(p: State) {
    && (forall a, b :: a in Served(p) && b in Served(p) && a != b ==>
          RunServed(p.claimers[a]) != RunServed(p.claimers[b]))
    && (forall w :: w in p.claimers && p.claimers[w].Done? && p.claimers[w].got.Some? ==>
          p.claimers[w].got.value in p.v.cells && p.v.cells[p.claimers[w].got.value].row.status != Queued)
  }

  /** What each lock and commit keeps: runs free plus claimers served, and whoever goes without
      has found none free. */
  ghost predicate Counted(p: State, q: State) {
    && |Free(q)| + |Served(q)| == |Free(p)| + |Served(p)|
    && Free(q) <= Free(p)
    && q.claimers.Keys == p.claimers.Keys
    && (forall w :: w in q.claimers && Unserved(q.claimers[w]) ==> Unserved(p.claimers[w]) || Free(q) == {})
  }

  lemma NoneCounts(p: State, lease: int, w: WorkerId)
    requires Sound(p) && Enabled(p, Lock(w, None))
    ensures Counted(p, Next(p, lease, Lock(w, None)))
  {
    var q := Next(p, lease, Lock(w, None));
    LockedSame(p, q, w);
    assert Served(q) == Served(p);
  }

  lemma LockCounts(p: State, lease: int, w: WorkerId, id: RunId)
    requires Sound(p) && Enabled(p, Lock(w, Some(id)))
    ensures Counted(p, Next(p, lease, Lock(w, Some(id))))
  {
    var q := Next(p, lease, Lock(w, Some(id)));
    LockedAfterLock(p, q, w, id);
    assert Free(q) == Free(p) - {id};
    assert Served(q) == Served(p) + {w};
  }

  lemma CommitCounts(p: State, lease: int, w: WorkerId)
    requires Sound(p) && Enabled(p, Commit(w))
    ensures Counted(p, Next(p, lease, Commit(w)))
  {
    var q := Next(p, lease, Commit(w));
    LockedAfterRelease(p, q, w);
    HolderLocks(p, w);
    assert Free(q) == Free(p);
    assert Served(q) == Served(p);
  }

  lemma MoveCounts(p: State, lease: int, move: Move)
    requires Sound(p) && Enabled(p, move) && (move.Lock? || move.Commit?)
    ensures Counted(p, Next(p, lease, move))
  {
    match move {
      case Lock(w, None) => NoneCounts(p, lease, w);
      case Lock(w, Some(id)) => LockCounts(p, lease, w, id);
      case Commit(w) => CommitCounts(p, lease, w);
    }
  }

  lemma MoveHandsOnce(p: State, lease: int, move: Move)
    requires Sound(p) && HandedOnce(p) && Enabled(p, move) && (move.Lock? || move.Commit?)
    ensures HandedOnce(Next(p, lease, move))
  {
    var q := Next(p, lease, move);
    if move.Lock? && move.pick.Some? {
      var id := move.pick.value;
      forall w | w in Served(p)
        ensures RunServed(p.claimers[w]) != id
      {
        if p.claimers[w].Holding? {
          HolderLocks(p, w);
        }
      }
    }
    forall w | w in Served(q)
      ensures w in Served(p) ==> RunServed(q.claimers[w]) == RunServed(p.claimers[w])
      ensures w !in Served(p) ==> move.Lock? && move.worker == w && move.pick == Some(RunServed(q.claimers[w]))
    {
    }
  }

  lemma {:induction false} PlayCounts(p: State, lease: int, moves: seq<Move>)
    requires Playable(p, lease, moves) && ClaimsOnly(moves) && HandedOnce(p)
    requires forall w :: w in p.claimers && Unserved(p.claimers[w]) ==> Free(p) == {}
    ensures var q := Play(p, lease, moves);
            && |Free(q)| + |Served(q)| == |Free(p)| + |Served(p)|
            && q.claimers.Keys == p.claimers.Keys
            && (forall w :: w in q.claimers && Unserved(q.claimers[w]) ==> Free(q) == {})
            && HandedOnce(q)
    decreases |moves|
  {
    if moves != [] {
      assert moves[0] in moves && forall move <- moves[1..] :: move in moves;
      MoveCounts(p, lease, moves[0]);
      MoveHandsOnce(p, lease, moves[0]);
      PlayCounts(Next(p, lease, moves[0]), lease, moves[1..]);
    }
  }

  function Min(a: nat, b: nat): nat {
    if a <= b then a else b
  }

  /** m claimers over n available queued runs hand out exactly min(m, n) distinct runs, however
      their locks and commits interleave. */
  lemma ExactlyMin(p: State, lease: int, moves: seq<Move>)
    requires Playable(p, lease, moves) && ClaimsOnly(moves)
    requires forall w :: w in p.claimers ==> p.claimers[w].Fresh?
    requires forall w :: w in Play(p, lease, moves).claimers ==> Play(p, lease, moves).claimers[w].Done?
    ensures |Served(Play(p, lease, moves))| == Min(|p.claimers|, |Candidates(p.v, {})|)
    ensures HandedOnce(Play(p, lease, moves))
  {
    assert Locked(p) == {} && Served(p) == {};
    PlayCounts(p, lease, moves);
    AllDone(Play(p, lease, moves), |Candidates(p.v, {})|);
  }

  lemma AllDone(q: State, n: nat)
    requires forall w :: w in q.claimers ==> q.claimers[w].Done?
    requires forall w :: w in q.claimers && Unserved(q.claimers[w]) ==> Free(q) == {}
    requires |Free(q)| + |Served(q)| == n
    ensures |Served(q)| == Min(|q.claimers.Keys|, n)
  {
    if Free(q) == {} {
      ServedBound(q);
    } else {
      assert Served(q) == q.claimers.Keys;
    }
  }

  lemma ServedBound(p: State)
    ensures |Served(p)| <= |p.claimers.Keys|
  {
    SubsetSize(Served(p), p.claimers.Keys);
  }
}
