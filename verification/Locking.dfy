/** Concurrent transactions, one UPDATE at a time.

  AcquireHold, AllocateQuota, ConfirmHold, ReleaseHold and ReleaseConfirmed run as separate
  transactions whose statements interleave in any order. A transaction locks the hold row it
  settles and every seat row it updates until it ends; an UPDATE of a row that somebody else has
  locked waits; uncommitted rows are visible to their own transaction only. Every such run ends
  like the serial run in commit order, and some transaction can always go on.
 */
module Locking {
  import opened Wrappers
  import opened Bits
  import opened Inventory
  import opened StoreLoops
  import opened Ownership

  datatype Phase =
    | Idle
    | Running(trip: TripId, nos: seq<SeatNo>, ms: map<SeatNo, Mask>, done: nat, buffer: map<Seat, SeatRow>)
    | Ended(out: Outcome)

  datatype Proc = Proc(op: Op, phase: Phase)

  /** Committed tables, transactions, and the order in which transactions ended. */
  datatype Sys = Sys(db: Db, procs: seq<Proc>, ended: seq<nat>)

  predicate Concurrent(op: Op) { op.OpAcquire? || op.OpAllocate? || SettlesHold(op) }
  predicate SettlesHold(op: Op) { op.OpConfirm? || op.OpRelease? || op.OpUnsell? }

  function MoveOf(op: Op): Move
    requires Concurrent(op)
  {
    match op
    case OpAcquire(_, _, _, _, _, _) => TakeHold
    case OpAllocate(_, _, _, _, _) => Block
    case OpConfirm(_) => HoldToSold
    case OpRelease(_, _) => DropHold
    case OpUnsell(_) => Unsell
  }

  function Refusal(op: Op): Outcome { if op.OpConfirm? then ErrHoldLost else ErrSeatUnavailable }

  // ---- locks ---------------------------------------------------------------------------

  predicate LocksSeat(p: Proc, s: Seat) { p.phase.Running? && s in p.phase.buffer }

  predicate LocksHold(p: Proc, h: HoldId) { p.phase.Running? && SettlesHold(p.op) && p.op.h == h }

  predicate SeatFree(procs: seq<Proc>, i: nat, s: Seat) {
    forall j :: 0 <= j < |procs| && j != i ==> !LocksSeat(procs[j], s)
  }

  predicate HoldFree(procs: seq<Proc>, i: nat, h: HoldId) {
    forall j :: 0 <= j < |procs| && j != i ==> !LocksHold(procs[j], h)
  }

  // ---- the statements of one transaction ---------------------------------------------------

  /** BEGIN, the checks before it, and SELECT ... FOR UPDATE of the hold row. */
  function Begin(db: Db, op: Op): Phase
    requires Concurrent(op)
  {
    match op
    case OpAcquire(_, trip, seats, board, drop, _) =>
      var sm := SegmentMask(board, drop);
      if sm == None then Ended(ErrBadSegments)
      else if seats == [] then Ended(ErrNoSeats)
      else Running(trip, SortSeats(seats), Each(seats, sm.value), 0, map[])
    case OpAllocate(_, trip, seats, board, drop) =>
      var sm := SegmentMask(board, drop);
      if seats == [] then Ended(ErrNoSeats)
      else if |seats| > MAX_QUOTA_SEATS then Ended(ErrQuotaTooLarge)
      else if sm == None then Ended(ErrBadSegments)
      else Running(trip, SortSeats(seats), Each(seats, sm.value), 0, map[])
    case _ =>
      if op.h !in db.holds then Ended(ErrHoldNotFound)
      else
        var row := db.holds[op.h];
        if row.status == Before(op) then Running(row.trip, InOrder(ItemsOf(db, op.h).Keys), ItemsOf(db, op.h), 0, map[])
        else if op.OpConfirm? && row.status != CONFIRMED then Ended(ErrHoldNotActive)
        else Ended(Ok)
  }

  /** The status in which ConfirmHold, ReleaseHold or ReleaseConfirmed has work to do, and the one it sets. */
  function Before(op: Op): Status { if op.OpUnsell? then CONFIRMED else HELD }
  function Afterwards(op: Op): Status {
    if op.OpConfirm? then CONFIRMED else if op.OpRelease? && op.expired then EXPIRED else RELEASED
  }

  /** The row as this transaction sees it: its own write, or the committed row. */
  function View(db: Db, ph: Phase, s: Seat): SeatRow
    requires ph.Running? && s in db.seats
  {
    if s in ph.buffer then ph.buffer[s] else db.seats[s]
  }

  /** The next seat UPDATE; a guarded one that finds no row rolls back. */
  function UpdateNext(db: Db, p: Proc): Phase
    requires Concurrent(p.op) && p.phase.Running? && p.phase.done < |p.phase.nos| && p.phase.nos[p.phase.done] in p.phase.ms
  {
    var ph, mv := p.phase, MoveOf(p.op);
    var s, m := Seat(ph.trip, ph.nos[ph.done]), ph.ms[ph.nos[ph.done]];
    if s in db.seats && Ready(mv, View(db, ph, s), m) then
      ph.(done := ph.done + 1, buffer := ph.buffer[s := Apply(mv, View(db, ph, s), m)])
    else if IsGuarded(mv) then Ended(Refusal(p.op))
    else ph.(done := ph.done + 1)
  }

  /** COMMIT: the buffered seat rows and the rows inserted or updated by key become visible. */
  function Commit(db: Db, p: Proc): (Db, Outcome)
    requires Concurrent(p.op) && p.phase.Running?
  {
    Visible(db, p.op, db.seats + p.phase.buffer, p.phase.ms)
  }

  function Visible(db: Db, op: Op, seats: map<Seat, SeatRow>, ms: map<SeatNo, Mask>): (Db, Outcome)
    requires Concurrent(op)
  {
    match op
    case OpAcquire(h, trip, _, _, _, expires) =>
      if h in db.holds then (db, ErrDuplicateKey)
      else (db.(seats := seats, holds := db.holds[h := HoldRow(trip, HELD, expires)], items := db.items + NewItems(h, trip, ms)), Ok)
    case OpAllocate(c, trip, _, _, _) =>
      (db.(seats := seats, quota := db.quota + QuotaRows(c, trip, ms, QuotaAllocated)), Ok)
    case _ =>
      if op.h !in db.holds then (db, ErrHoldNotFound)
      else (db.(seats := seats, holds := db.holds[op.h := db.holds[op.h].(status := Afterwards(op))]), Ok)
  }

  // ---- the scheduler -----------------------------------------------------------------

  predicate WellTyped(p: Proc) {
    Concurrent(p.op) && (p.phase.Running? ==> p.phase.done <= |p.phase.nos| && forall no :: no in p.phase.nos ==> no in p.phase.ms)
  }

  /** What transaction `i` waits for is not locked by another one. An UPDATE whose guard already
      fails on the committed row finds no row and need not wait. */
  predicate Enabled(sys: Sys, i: nat) {
    && i < |sys.procs| && WellTyped(sys.procs[i])
    && var p := sys.procs[i];
       match p.phase
       case Idle => SettlesHold(p.op) && p.op.h in sys.db.holds ==> HoldFree(sys.procs, i, p.op.h)
       case Running(trip, nos, ms, done, _) =>
         done < |nos| && Seat(trip, nos[done]) in sys.db.seats ==>
           SeatFree(sys.procs, i, Seat(trip, nos[done])) || !Ready(MoveOf(p.op), View(sys.db, p.phase, Seat(trip, nos[done])), ms[nos[done]])
       case Ended(_) => false
  }

  /** `j` runs and has written the seat row that `i` is about to update, or has locked the hold row that it is
      about to read. */
  ghost predicate WaitsFor(sys: Sys, i: nat, j: nat)
    requires i < |sys.procs| && j < |sys.procs| && WellTyped(sys.procs[i])
  {
    var p, q := sys.procs[i], sys.procs[j];
    && q.phase.Running?
    && match p.phase
       case Idle => (p.op.OpConfirm? || p.op.OpRelease? || p.op.OpUnsell?) && (q.op.OpConfirm? || q.op.OpRelease? || q.op.OpUnsell?)
                    && p.op.h == q.op.h && p.op.h in sys.db.holds
       case Running(trip, nos, ms, done, buffer) =>
         && done < |nos| && Seat(trip, nos[done]) in sys.db.seats && Seat(trip, nos[done]) in q.phase.buffer
         && var s := Seat(trip, nos[done]);
         Ready(MoveOf(p.op), if s in buffer then buffer[s] else sys.db.seats[s], ms[nos[done]])
       case Ended(_) => false
  }

  /** A transaction that has not ended can take its next step if and only if no other one has locked the row that this
      step needs; transactions on other seats and other holds never wait for each other. */
  lemma WaitsIff(sys: Sys, i: nat)
    requires i < |sys.procs| && WellTyped(sys.procs[i]) && !sys.procs[i].phase.Ended?
    ensures !Enabled(sys, i) <==> exists j: nat :: j < |sys.procs| && j != i && WaitsFor(sys, i, j)
  {
    hide Ready;
    if !Enabled(sys, i) {
      if sys.procs[i].phase.Idle? {
        var j: nat :| j < |sys.procs| && j != i && LocksHold(sys.procs[j], sys.procs[i].op.h);
        assert WaitsFor(sys, i, j);
      } else {
        var ph := sys.procs[i].phase;
        var j: nat :| j < |sys.procs| && j != i && LocksSeat(sys.procs[j], Seat(ph.trip, ph.nos[ph.done]));
        assert WaitsFor(sys, i, j);
      }
    }
  }

  function Act(sys: Sys, i: nat): Sys {
    if !Enabled(sys, i) then sys
    else
      var p := sys.procs[i];
      match p.phase
      case Idle => Enter(sys, i, sys.db, Begin(sys.db, p.op))
      case Running(_, nos, _, done, _) =>
        if done < |nos| then Enter(sys, i, sys.db, UpdateNext(sys.db, p))
        else Enter(sys, i, Commit(sys.db, p).0, Ended(Commit(sys.db, p).1))
      case Ended(_) => sys
  }

  function Enter(sys: Sys, i: nat, db: Db, phase: Phase): Sys
    requires i < |sys.procs|
  {
    Sys(db, sys.procs[i := sys.procs[i].(phase := phase)], if phase.Ended? then sys.ended + [i] else sys.ended)
  }

  // ---- what holds in every reachable state -------------------------------------------------

  /** The update of seat `no` is still valid on the committed row. */
  ghost predicate RowDone(seats: map<Seat, SeatRow>, mv: Move, ph: Phase, no: SeatNo)
    requires ph.Running? && no in ph.ms
  {
    var s := Seat(ph.trip, no);
    if s in seats then s in ph.buffer && Ready(mv, seats[s], ph.ms[no]) && ph.buffer[s] == Apply(mv, seats[s], ph.ms[no])
    else s !in ph.buffer && !IsGuarded(mv)
  }

  /** The work done so far is still valid on the committed rows, because they are locked. */
  ghost predicate SeatsDone(seats: map<Seat, SeatRow>, mv: Move, ph: Phase)
    requires ph.Running? && ph.done <= |ph.nos| && forall no :: no in ph.nos ==> no in ph.ms
  {
    && (forall s :: s in ph.buffer ==> s.trip == ph.trip && s.no in ph.nos[..ph.done])
    && (forall no :: no in ph.nos[..ph.done] ==> RowDone(seats, mv, ph, no))
    && Distinct(ph.nos[..ph.done])
  }

  /** The request it works off is the one it would read now: the rows it read are locked. */
  ghost predicate Request(db: Db, p: Proc)
    requires WellTyped(p) && p.phase.Running?
  {
    var b := Begin(db, p.op);
    b.Running? && b.trip == p.phase.trip && b.nos == p.phase.nos && b.ms == p.phase.ms
  }

  ghost predicate ProcOk(db: Db, p: Proc) {
    WellTyped(p) && (p.phase.Running? ==> Request(db, p) && SeatsDone(db.seats, MoveOf(p.op), p.phase))
  }

  // ---- one transaction against the meaning of its operation ------------------------------------

  lemma RequestShape(db: Db, op: Op)
    requires Concurrent(op) && Begin(db, op).Running?
    ensures Sorted(Begin(db, op).nos) && forall no :: no in Begin(db, op).nos <==> no in Begin(db, op).ms
    ensures SettlesHold(op) ==> Distinct(Begin(db, op).nos)
    ensures !SettlesHold(op) ==> forall no :: no in Begin(db, op).ms ==> Begin(db, op).ms[no] != 0
  {
    if SettlesHold(op) {
      var nos := InOrder(ItemsOf(db, op.h).Keys);
      assert Begin(db, op).nos == nos && Begin(db, op).ms == ItemsOf(db, op.h) && Ascending(nos);
    } else {
      JourneyNotEmpty(op.board, op.drop);
      InRequestOrder(op.seats, SegmentMask(op.board, op.drop).value);
    }
  }

  lemma BeginsWell(db: Db, op: Op)
    requires Concurrent(op)
    ensures ProcOk(db, Proc(op, Begin(db, op)))
    ensures Begin(db, op).Ended? ==> Step(db, op).db == db && Step(db, op).out == Begin(db, op).out
  {
    if Begin(db, op).Running? { RequestShape(db, op); }
  }

  /** In terms of the request in seat order, the meaning of every operation has one shape. */
  ghost predicate InOneShape(db: Db, op: Op)
    requires Concurrent(op) && Begin(db, op).Running?
  {
    var b, mv := Begin(db, op), MoveOf(op);
    if IsGuarded(mv) && !(Distinct(b.nos) && AllReady(db.seats, b.trip, b.ms, mv))
    then Step(db, op).db == db && Step(db, op).out == Refusal(op)
    else (Step(db, op).db, Step(db, op).out) == Visible(db, op, Touch(db.seats, b.trip, b.ms, mv), b.ms)
  }

  lemma SeatMeaning(db: Db, op: Op)
    requires (op.OpAcquire? || op.OpAllocate?) && Begin(db, op).Running?
    ensures InOneShape(db, op)
  {
    match op
    case OpAcquire(h, trip, seats, board, drop, expires) => AcquireInOrder(db, h, trip, seats, board, drop, expires, Begin(db, op).ms);
    case OpAllocate(c, trip, seats, board, drop) => AllocateInOrder(db, c, trip, seats, board, drop, Begin(db, op).ms);
  }

  lemma HoldMeaning(db: Db, op: Op)
    requires SettlesHold(op) && Begin(db, op).Running?
    ensures InOneShape(db, op)
  {
    RequestShape(db, op);
  }

  lemma MeaningInOrder(db: Db, op: Op)
    requires Concurrent(op) && Begin(db, op).Running?
    ensures InOneShape(db, op)
  {
    if SettlesHold(op) { HoldMeaning(db, op); } else { SeatMeaning(db, op); }
  }

  // ---- each statement keeps the work valid -----------------------------------------------------

  lemma OneMoreRow(seats: map<Seat, SeatRow>, mv: Move, ph: Phase, ph2: Phase)
    requires ph.Running? && ph.done < |ph.nos| && (forall no :: no in ph.nos ==> no in ph.ms) && SeatsDone(seats, mv, ph)
    requires ph.nos[ph.done] !in ph.nos[..ph.done]
    requires var no := ph.nos[ph.done]; var s := Seat(ph.trip, no);
      if s in seats && Ready(mv, seats[s], ph.ms[no])
      then ph2 == ph.(done := ph.done + 1, buffer := ph.buffer[s := Apply(mv, seats[s], ph.ms[no])])
      else s !in seats && !IsGuarded(mv) && ph2 == ph.(done := ph.done + 1)
    ensures SeatsDone(seats, mv, ph2)
  {
    var no := ph.nos[ph.done];
    assert ph.nos[..ph.done + 1] == ph.nos[..ph.done] + [no];
    forall n | n in ph2.nos[..ph2.done] ensures RowDone(seats, mv, ph2, n) {
      if n != no { assert RowDone(seats, mv, ph, n); }
    }
  }

  /** A seat named twice in the request finds its own write and is refused. */
  lemma RepeatIsRefused(db: Db, p: Proc)
    requires ProcOk(db, p) && p.phase.Running? && p.phase.done < |p.phase.nos|
    requires p.phase.nos[p.phase.done] in p.phase.nos[..p.phase.done]
    ensures UpdateNext(db, p) == Ended(Refusal(p.op)) && IsGuarded(MoveOf(p.op)) && !Distinct(p.phase.nos)
  {
    var ph, mv := p.phase, MoveOf(p.op);
    var no := ph.nos[ph.done];
    RequestShape(db, p.op);
    var j :| 0 <= j < ph.done && ph.nos[j] == no;
    assert !Distinct(ph.nos) && RowDone(db.seats, mv, ph, no);
    TakenTwice(db.seats[Seat(ph.trip, no)], ph.ms[no], mv);
  }

  lemma UpdateKeepsOk(db: Db, p: Proc)
    requires ProcOk(db, p) && p.phase.Running? && p.phase.done < |p.phase.nos|
    ensures UpdateNext(db, p).Running? ==> ProcOk(db, p.(phase := UpdateNext(db, p)))
    ensures UpdateNext(db, p).Ended? ==>
              UpdateNext(db, p).out == Refusal(p.op) && IsGuarded(MoveOf(p.op))
              && !(Distinct(p.phase.nos) && AllReady(db.seats, p.phase.trip, p.phase.ms, MoveOf(p.op)))
  {
    var ph := p.phase;
    var no := ph.nos[ph.done];
    if no in ph.nos[..ph.done] {
      RepeatIsRefused(db, p);
    } else {
      assert Seat(ph.trip, no) !in ph.buffer;
      if UpdateNext(db, p).Running? { OneMoreRow(db.seats, MoveOf(p.op), ph, UpdateNext(db, p)); }
    }
  }

  lemma AllRowsDone(seats: map<Seat, SeatRow>, mv: Move, ph: Phase)
    requires ph.Running? && ph.done == |ph.nos| && (forall no :: no in ph.nos <==> no in ph.ms) && SeatsDone(seats, mv, ph)
    ensures seats + ph.buffer == Touch(seats, ph.trip, ph.ms, mv)
    ensures IsGuarded(mv) ==> Distinct(ph.nos) && AllReady(seats, ph.trip, ph.ms, mv)
  {
    assert ph.nos[..ph.done] == ph.nos;
    hide Apply, Ready;
    forall s ensures s in ph.buffer ==> s in seats { if s in ph.buffer { assert RowDone(seats, mv, ph, s.no); } }
    forall s | s in seats ensures (seats + ph.buffer)[s] == Touch(seats, ph.trip, ph.ms, mv)[s] {
      if s.trip == ph.trip && s.no in ph.ms { assert RowDone(seats, mv, ph, s.no); }
    }
    forall no | no in ph.ms ensures RowDone(seats, mv, ph, no) {}
  }

  lemma BufferIsTouch(db: Db, p: Proc)
    requires ProcOk(db, p) && p.phase.Running? && p.phase.done == |p.phase.nos|
    ensures db.seats + p.phase.buffer == Touch(db.seats, p.phase.trip, p.phase.ms, MoveOf(p.op))
    ensures IsGuarded(MoveOf(p.op)) ==> Distinct(p.phase.nos) && AllReady(db.seats, p.phase.trip, p.phase.ms, MoveOf(p.op))
  {
    RequestShape(db, p.op);
    AllRowsDone(db.seats, MoveOf(p.op), p.phase);
  }

  lemma CommitIsStep(db: Db, p: Proc)
    requires ProcOk(db, p) && p.phase.Running? && p.phase.done == |p.phase.nos|
    ensures Commit(db, p) == (Step(db, p.op).db, Step(db, p.op).out)
  {
    BufferIsTouch(db, p);
    MeaningInOrder(db, p.op);
  }

  lemma RefusalIsStep(db: Db, p: Proc)
    requires ProcOk(db, p) && p.phase.Running? && p.phase.done < |p.phase.nos| && UpdateNext(db, p).Ended?
    ensures Step(db, p.op).db == db && Step(db, p.op).out == UpdateNext(db, p).out
  {
    UpdateKeepsOk(db, p);
    MeaningInOrder(db, p.op);
  }

  lemma RowsUndisturbed(seats: map<Seat, SeatRow>, seats2: map<Seat, SeatRow>, mv: Move, ph: Phase)
    requires ph.Running? && ph.done <= |ph.nos| && (forall no :: no in ph.nos ==> no in ph.ms) && SeatsDone(seats, mv, ph)
    requires seats2.Keys == seats.Keys && forall s :: s in ph.buffer && s in seats ==> seats2[s] == seats[s]
    ensures SeatsDone(seats2, mv, ph)
  {
    forall no | no in ph.nos[..ph.done] ensures RowDone(seats2, mv, ph, no) { assert RowDone(seats, mv, ph, no); }
  }

  lemma RequestUndisturbed(db: Db, db2: Db, op: Op)
    requires Concurrent(op)
    requires SettlesHold(op) ==> (op.h in db.holds <==> op.h in db2.holds) && (op.h in db.holds ==> db2.holds[op.h] == db.holds[op.h])
    requires SettlesHold(op) ==> ItemsOf(db2, op.h) == ItemsOf(db, op.h)
    ensures Begin(db2, op) == Begin(db, op)
  {
  }

  lemma BufferedSeatsExist(db: Db, p: Proc)
    requires ProcOk(db, p) && p.phase.Running?
    ensures forall s :: s in p.phase.buffer ==> s in db.seats
  {
    forall s | s in p.phase.buffer ensures s in db.seats { assert RowDone(db.seats, MoveOf(p.op), p.phase, s.no); }
  }

  lemma VisibleSeats(db: Db, op: Op, seats: map<Seat, SeatRow>, ms: map<SeatNo, Mask>)
    requires Concurrent(op)
    ensures Visible(db, op, seats, ms).0.seats in {db.seats, seats}
  {
  }

  lemma SameItems(db: Db, db2: Db, h: HoldId)
    requires forall no :: ItemKey(h, no) in db2.items <==> ItemKey(h, no) in db.items
    requires forall no :: ItemKey(h, no) in db.items ==> db2.items[ItemKey(h, no)] == db.items[ItemKey(h, no)]
    ensures ItemsOf(db2, h) == ItemsOf(db, h)
  {
  }

  lemma OtherHoldRow(db: Db, op: Op, seats: map<Seat, SeatRow>, ms: map<SeatNo, Mask>, h: HoldId)
    requires Concurrent(op) && h in db.holds && !(SettlesHold(op) && op.h == h)
    ensures var db2 := Visible(db, op, seats, ms).0; h in db2.holds && db2.holds[h] == db.holds[h]
    ensures op.OpAcquire? || Visible(db, op, seats, ms).0.items == db.items
    ensures op.OpAcquire? ==> Visible(db, op, seats, ms).0.items == db.items || (op.h != h && Visible(db, op, seats, ms).0.items == db.items + NewItems(op.h, op.trip, ms))
  {
  }

  lemma OtherHoldUntouched(db: Db, op: Op, seats: map<Seat, SeatRow>, ms: map<SeatNo, Mask>, h: HoldId)
    requires Concurrent(op) && h in db.holds && !(SettlesHold(op) && op.h == h)
    ensures var db2 := Visible(db, op, seats, ms).0; h in db2.holds && db2.holds[h] == db.holds[h] && ItemsOf(db2, h) == ItemsOf(db, h)
  {
    OtherHoldRow(db, op, seats, ms, h);
    SameItems(db, Visible(db, op, seats, ms).0, h);
  }

  /** A commit that touches none of the rows `q` has locked leaves all of its work valid. */
  lemma OtherWorkValid(db: Db, db2: Db, q: Proc)
    requires ProcOk(db, q) && q.phase.Running?
    requires db2.seats.Keys == db.seats.Keys && forall s :: s in q.phase.buffer && s in db.seats ==> db2.seats[s] == db.seats[s]
    requires SettlesHold(q.op) ==> q.op.h in db.holds && q.op.h in db2.holds && db2.holds[q.op.h] == db.holds[q.op.h]
    requires SettlesHold(q.op) ==> ItemsOf(db2, q.op.h) == ItemsOf(db, q.op.h)
    ensures ProcOk(db2, q)
  {
    RowsUndisturbed(db.seats, db2.seats, MoveOf(q.op), q.phase);
    RequestUndisturbed(db, db2, q.op);
  }

  /** A commit changes no row that another transaction has locked. */
  lemma CommitElsewhere(db: Db, p: Proc, q: Proc)
    requires ProcOk(db, p) && ProcOk(db, q) && p.phase.Running? && q.phase.Running?
    requires forall s :: LocksSeat(p, s) ==> !LocksSeat(q, s)
    requires forall h :: LocksHold(p, h) ==> !LocksHold(q, h)
    ensures ProcOk(Commit(db, p).0, q)
  {
    BufferedSeatsExist(db, p);
    VisibleSeats(db, p.op, db.seats + p.phase.buffer, p.phase.ms);
    assert forall s :: s in q.phase.buffer ==> LocksSeat(q, s) && !LocksSeat(p, s);
    if SettlesHold(q.op) {
      assert LocksHold(q, q.op.h) && !LocksHold(p, q.op.h);
      OtherHoldUntouched(db, p.op, db.seats + p.phase.buffer, p.phase.ms, q.op.h);
    }
    OtherWorkValid(db, Commit(db, p).0, q);
  }
}
