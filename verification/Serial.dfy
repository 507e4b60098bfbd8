/** Every schedule of concurrent transactions is equivalent to a serial one, and never gets stuck. */
module Serializability {
  import opened Bits
  import opened Inventory
  import opened StoreLoops
  import opened Ownership
  import opened Laws
  import opened Locking

  predicate AllConcurrent(ops: seq<Op>) { forall op :: op in ops ==> Concurrent(op) }

  function Start(db: Db, ops: seq<Op>): Sys {
    Sys(db, seq(|ops|, i requires 0 <= i < |ops| => Proc(ops[i], Idle)), [])
  }

  /** Any scheduler: who takes the next step. */
  function Play(sys: Sys, schedule: seq<nat>): Sys
    decreases |schedule|
  {
    if schedule == [] then sys else Play(Act(sys, schedule[0]), schedule[1..])
  }

  predicate InRange(ops: seq<Op>, order: seq<nat>) { forall n :: 0 <= n < |order| ==> order[n] < |ops| }

  /** One whole transaction after the other. */
  function Serially(db: Db, ops: seq<Op>, order: seq<nat>): Db
    requires InRange(ops, order)
  {
    if order == [] then db
    else
      var n := |order| - 1;
      Step(Serially(db, ops, order[..n]), ops[order[n]]).db
  }

  // ---- the invariant -------------------------------------------------------------------

  ghost predicate Exclusive(procs: seq<Proc>) {
    forall i, j :: 0 <= i < |procs| && 0 <= j < |procs| && i != j ==>
      && (forall s :: LocksSeat(procs[i], s) ==> !LocksSeat(procs[j], s))
      && (forall h :: LocksHold(procs[i], h) ==> !LocksHold(procs[j], h))
  }

  ghost predicate AllOk(sys: Sys) { forall i :: 0 <= i < |sys.procs| ==> ProcOk(sys.db, sys.procs[i]) }

  ghost predicate Accounts(ops: seq<Op>, sys: Sys) {
    && |sys.procs| == |ops| && (forall i :: 0 <= i < |ops| ==> sys.procs[i].op == ops[i])
    && InRange(ops, sys.ended) && Distinct(sys.ended)
    && (forall i :: 0 <= i < |ops| ==> (i in sys.ended <==> sys.procs[i].phase.Ended?))
  }

  /** The committed tables and all replies are those of the serial run in commit order. */
  ghost predicate SerialSoFar(db0: Db, ops: seq<Op>, sys: Sys)
    requires Accounts(ops, sys)
  {
    && sys.db == Serially(db0, ops, sys.ended)
    && forall n :: 0 <= n < |sys.ended| ==> RepliesAsSerial(db0, ops, sys, n)
  }

  ghost predicate RepliesAsSerial(db0: Db, ops: seq<Op>, sys: Sys, n: nat)
    requires n < |sys.ended| && InRange(ops, sys.ended) && |sys.procs| == |ops|
  {
    var i := sys.ended[n];
    sys.procs[i].phase == Ended(Step(Serially(db0, ops, sys.ended[..n]), ops[i]).out)
  }

  ghost predicate Inv(db0: Db, ops: seq<Op>, sys: Sys) {
    AllOk(sys) && Exclusive(sys.procs) && Accounts(ops, sys) && SerialSoFar(db0, ops, sys)
  }

  // ---- each statement keeps it ------------------------------------------------------------

  /** A transaction that ends with the reply its operation has now. */
  lemma Ends(db0: Db, ops: seq<Op>, sys: Sys, i: nat, db: Db, out: Outcome)
    requires Accounts(ops, sys) && SerialSoFar(db0, ops, sys) && i < |ops| && !sys.procs[i].phase.Ended?
    requires db == Step(sys.db, ops[i]).db && out == Step(sys.db, ops[i]).out
    ensures Accounts(ops, Enter(sys, i, db, Ended(out))) && SerialSoFar(db0, ops, Enter(sys, i, db, Ended(out)))
  {
    var sys2 := Enter(sys, i, db, Ended(out));
    assert sys2.ended[..|sys.ended|] == sys.ended;
    forall n | 0 <= n < |sys2.ended| ensures RepliesAsSerial(db0, ops, sys2, n) {
      assert sys2.ended[..n] == sys.ended[..n];
      if n < |sys.ended| {
        assert RepliesAsSerial(db0, ops, sys, n);
        assert sys.ended[n] in sys.ended;
      }
    }
  }

  /** A transaction that goes on. */
  lemma GoesOn(db0: Db, ops: seq<Op>, sys: Sys, i: nat, phase: Phase)
    requires Accounts(ops, sys) && SerialSoFar(db0, ops, sys) && i < |ops| && !sys.procs[i].phase.Ended? && !phase.Ended?
    ensures Accounts(ops, Enter(sys, i, sys.db, phase)) && SerialSoFar(db0, ops, Enter(sys, i, sys.db, phase))
  {
    var sys2 := Enter(sys, i, sys.db, phase);
    forall n | 0 <= n < |sys2.ended| ensures RepliesAsSerial(db0, ops, sys2, n) {
      assert RepliesAsSerial(db0, ops, sys, n);
      assert sys.ended[n] in sys.ended;
    }
  }

  /** Only new locks can collide, and a step takes only free ones. */
  lemma StillExclusive(procs: seq<Proc>, i: nat, p: Proc)
    requires Exclusive(procs) && i < |procs|
    requires forall s :: LocksSeat(p, s) ==> LocksSeat(procs[i], s) || SeatFree(procs, i, s)
    requires forall h :: LocksHold(p, h) ==> LocksHold(procs[i], h) || HoldFree(procs, i, h)
    ensures Exclusive(procs[i := p])
  {
  }

  lemma BeginLocksNoSeat(db: Db, p: Proc, s: Seat)
    requires Concurrent(p.op)
    ensures !LocksSeat(p.(phase := Begin(db, p.op)), s)
  {
  }

  lemma BeginLocksFreeHold(sys: Sys, i: nat, h: HoldId)
    requires i < |sys.procs| && Concurrent(sys.procs[i].op) && Enabled(sys, i) && sys.procs[i].phase.Idle?
    ensures LocksHold(sys.procs[i].(phase := Begin(sys.db, sys.procs[i].op)), h) ==> HoldFree(sys.procs, i, h)
  {
  }

  lemma BeginKeeps(db0: Db, ops: seq<Op>, sys: Sys, i: nat)
    requires Inv(db0, ops, sys) && Enabled(sys, i) && sys.procs[i].phase.Idle?
    ensures Inv(db0, ops, Act(sys, i))
  {
    hide SerialSoFar, Serially, Begin;
    var p := sys.procs[i];
    BeginsWell(sys.db, p.op);
    var p2 := p.(phase := Begin(sys.db, p.op));
    forall s ensures !LocksSeat(p2, s) { BeginLocksNoSeat(sys.db, p, s); }
    forall h ensures LocksHold(p2, h) ==> HoldFree(sys.procs, i, h) { BeginLocksFreeHold(sys, i, h); }
    hide LocksSeat, LocksHold, HoldFree;
    StillExclusive(sys.procs, i, p2);
    if p2.phase.Ended? { Ends(db0, ops, sys, i, sys.db, p2.phase.out); } else { GoesOn(db0, ops, sys, i, p2.phase); }
  }

  lemma NewLock(db: Db, p: Proc, s: Seat)
    requires Concurrent(p.op) && p.phase.Running? && p.phase.done < |p.phase.nos| && p.phase.nos[p.phase.done] in p.phase.ms
    requires LocksSeat(p.(phase := UpdateNext(db, p)), s) && !LocksSeat(p, s)
    ensures s == Seat(p.phase.trip, p.phase.nos[p.phase.done]) && s in db.seats
    ensures Ready(MoveOf(p.op), View(db, p.phase, s), p.phase.ms[s.no])
  {
  }

  lemma UpdateKeeps(db0: Db, ops: seq<Op>, sys: Sys, i: nat)
    requires Inv(db0, ops, sys) && Enabled(sys, i) && sys.procs[i].phase.Running? && sys.procs[i].phase.done < |sys.procs[i].phase.nos|
    ensures Inv(db0, ops, Act(sys, i))
  {
    hide SerialSoFar, Serially;
    var p := sys.procs[i];
    UpdateKeepsOk(sys.db, p);
    var p2 := p.(phase := UpdateNext(sys.db, p));
    forall s | LocksSeat(p2, s) ensures LocksSeat(p, s) || SeatFree(sys.procs, i, s) {
      if !LocksSeat(p, s) { NewLock(sys.db, p, s); }
    }
    StillExclusive(sys.procs, i, p2);
    if p2.phase.Ended? {
      RefusalIsStep(sys.db, p);
      Ends(db0, ops, sys, i, sys.db, p2.phase.out);
    } else {
      GoesOn(db0, ops, sys, i, p2.phase);
    }
  }

  lemma CommitKeeps(db0: Db, ops: seq<Op>, sys: Sys, i: nat)
    requires Inv(db0, ops, sys) && Enabled(sys, i) && sys.procs[i].phase.Running? && sys.procs[i].phase.done == |sys.procs[i].phase.nos|
    ensures Inv(db0, ops, Act(sys, i))
  {
    var p, sys2 := sys.procs[i], Act(sys, i);
    CommitIsStep(sys.db, p);
    Ends(db0, ops, sys, i, Commit(sys.db, p).0, Commit(sys.db, p).1);
    StillExclusive(sys.procs, i, p.(phase := Ended(Commit(sys.db, p).1)));
    forall j | 0 <= j < |sys2.procs| ensures ProcOk(sys2.db, sys2.procs[j]) {
      if j != i && sys.procs[j].phase.Running? { CommitElsewhere(sys.db, p, sys.procs[j]); }
    }
  }

  lemma ActKeeps(db0: Db, ops: seq<Op>, sys: Sys, i: nat)
    requires Inv(db0, ops, sys)
    ensures Inv(db0, ops, Act(sys, i))
  {
    if Enabled(sys, i) {
      match sys.procs[i].phase
      case Idle => BeginKeeps(db0, ops, sys, i);
      case Running(_, nos, _, done, _) =>
        if done < |nos| { UpdateKeeps(db0, ops, sys, i); } else { CommitKeeps(db0, ops, sys, i); }
    }
  }

  lemma {:induction false} PlayKeeps(db0: Db, ops: seq<Op>, sys: Sys, schedule: seq<nat>)
    requires Inv(db0, ops, sys)
    ensures Inv(db0, ops, Play(sys, schedule))
    decreases |schedule|
  {
    if schedule != [] {
      ActKeeps(db0, ops, sys, schedule[0]);
      PlayKeeps(db0, ops, Act(sys, schedule[0]), schedule[1..]);
    }
  }

  lemma StartOk(db0: Db, ops: seq<Op>)
    requires AllConcurrent(ops)
    ensures Inv(db0, ops, Start(db0, ops))
  {
  }

  // ---- the theorems ---------------------------------------------------------------------

  /** Whatever the interleaving, the committed tables and every reply are those of running the
      ended transactions one after the other, in the order in which they ended. */
  lemma EveryScheduleIsSerial(db0: Db, ops: seq<Op>, schedule: seq<nat>)
    requires AllConcurrent(ops)
    ensures var sys := Play(Start(db0, ops), schedule); Accounts(ops, sys) && SerialSoFar(db0, ops, sys)
  {
    StartOk(db0, ops);
    PlayKeeps(db0, ops, Start(db0, ops), schedule);
  }

  lemma {:induction false} SerialRefines(db0: Db, own0: Owners, ops: seq<Op>, order: seq<nat>) returns (own: Owners)
    requires AllConcurrent(ops) && InRange(ops, order) && Refines(db0, own0)
    ensures Refines(Serially(db0, ops, order), own)
  {
    own := own0;
    if order != [] {
      var n := |order| - 1;
      own := SerialRefines(db0, own0, ops, order[..n]);
      var db, op := Serially(db0, ops, order[..n]), ops[order[n]];
      assert op in ops;
      StepRefines(db, own, op);
      if Step(db, op).out == Ok { own := After(own, db, op); }
    }
  }

  /** No interleaving books a segment twice. */
  lemma NoDoubleBookingUnderConcurrency(db0: Db, own0: Owners, ops: seq<Op>, schedule: seq<nat>)
    requires AllConcurrent(ops) && Refines(db0, own0)
    ensures NoOverlap(Play(Start(db0, ops), schedule).db) && MasksAreUnions(Play(Start(db0, ops), schedule).db)
  {
    EveryScheduleIsSerial(db0, ops, schedule);
    var sys := Play(Start(db0, ops), schedule);
    var own := SerialRefines(db0, own0, ops, sys.ended);
    OneOwnerPerSegment(sys.db, own);
    MasksMatchRows(sys.db, own);
  }

  // ---- no deadlock ------------------------------------------------------------------------

  function Awaited(p: Proc): SeatNo
    requires p.phase.Running? && p.phase.done < |p.phase.nos|
  {
    p.phase.nos[p.phase.done]
  }

  function Above(sys: Sys, no: SeatNo): set<Seat> { set s | s in sys.db.seats && s.no > no }

  /** Seats are locked in ascending order. */
  lemma LockedIsBelow(db: Db, q: Proc, s: Seat)
    requires ProcOk(db, q) && LocksSeat(q, s) && q.phase.done < |q.phase.nos|
    ensures s.trip == q.phase.trip && s.no <= Awaited(q)
  {
    RequestShape(db, q.op);
    var k :| 0 <= k < q.phase.done && q.phase.nos[..q.phase.done][k] == s.no;
  }

  lemma BlockedOn(sys: Sys, j: nat)
    requires j < |sys.procs| && WellTyped(sys.procs[j]) && !Enabled(sys, j)
    requires sys.procs[j].phase.Running? && sys.procs[j].phase.done < |sys.procs[j].phase.nos|
    ensures var s := Seat(sys.procs[j].phase.trip, Awaited(sys.procs[j])); s in sys.db.seats && !SeatFree(sys.procs, j, s)
  {
  }

  lemma OwnSeatsAreFree(procs: seq<Proc>, j: nat, s: Seat)
    requires Exclusive(procs) && j < |procs| && LocksSeat(procs[j], s)
    ensures SeatFree(procs, j, s)
  {
  }

  /** Who holds the row that somebody waits for waits itself, if it waits, for a greater seat. */
  lemma WaitsUpwards(db: Db, procs: seq<Proc>, j: nat, s: Seat)
    requires j < |procs| && ProcOk(db, procs[j]) && LocksSeat(procs[j], s) && SeatFree(procs, j, s)
    requires procs[j].phase.done < |procs[j].phase.nos| && !SeatFree(procs, j, Seat(procs[j].phase.trip, Awaited(procs[j])))
    ensures s.no < Awaited(procs[j])
  {
    LockedIsBelow(db, procs[j], s);
  }

  lemma {:induction false} RunnerGoes(sys: Sys, i: nat) returns (j: nat)
    requires AllOk(sys) && Exclusive(sys.procs) && i < |sys.procs| && sys.procs[i].phase.Running?
    ensures Enabled(sys, j)
    decreases if sys.procs[i].phase.done < |sys.procs[i].phase.nos| then Above(sys, Awaited(sys.procs[i])) else {}
  {
    if Enabled(sys, i) { return i; }
    var s := Seat(sys.procs[i].phase.trip, Awaited(sys.procs[i]));
    var k :| 0 <= k < |sys.procs| && k != i && LocksSeat(sys.procs[k], s);
    if Enabled(sys, k) { return k; }
    if sys.procs[k].phase.done < |sys.procs[k].phase.nos| {
      OwnSeatsAreFree(sys.procs, k, s);
      BlockedOn(sys, k);
      WaitsUpwards(sys.db, sys.procs, k, s);
      assert Seat(sys.procs[k].phase.trip, Awaited(sys.procs[k])) in Above(sys, Awaited(sys.procs[i]));
    }
    j := RunnerGoes(sys, k);
  }

  /** In every reachable state some transaction that has not ended can take its next step. */
  lemma NeverStuck(db0: Db, ops: seq<Op>, schedule: seq<nat>) returns (j: nat)
    requires AllConcurrent(ops)
    ensures var sys := Play(Start(db0, ops), schedule); |sys.ended| < |ops| ==> Enabled(sys, j)
  {
    StartOk(db0, ops);
    var sys := Play(Start(db0, ops), schedule);
    PlayKeeps(db0, ops, Start(db0, ops), schedule);
    j := 0;
    if |sys.ended| < |ops| {
      var i := SomeoneIsLeft(ops, sys);
      j := i;
      if sys.procs[i].phase.Running? { j := RunnerGoes(sys, i); }
      else if !Enabled(sys, i) {
        var k :| 0 <= k < |sys.procs| && k != i && LocksHold(sys.procs[k], sys.procs[i].op.h);
        j := RunnerGoes(sys, k);
      }
    }
  }

  lemma SomeoneIsLeft(ops: seq<Op>, sys: Sys) returns (i: nat)
    requires Accounts(ops, sys) && |sys.ended| < |ops|
    ensures i < |ops| && !sys.procs[i].phase.Ended?
  {
    if forall k :: 0 <= k < |ops| ==> k in sys.ended {
      CoveringIsLong(|ops|, sys.ended);
    }
    i :| 0 <= i < |ops| && i !in sys.ended;
  }

  lemma {:induction false} CoveringIsLong(n: nat, s: seq<nat>)
    requires forall k: nat :: k < n ==> k in s
    ensures n <= |s|
  {
    if n > 0 {
      var m: nat := n - 1;
      assert m in s;
      var j :| 0 <= j < |s| && s[j] == m;
      var rest := s[..j] + s[j + 1..];
      forall k: nat | k < n - 1 ensures k in rest {
        assert k in s;
        var i :| 0 <= i < |s| && s[i] == k;
        assert rest[if i < j then i else i - 1] == k;
      }
      CoveringIsLong(n - 1, rest);
    }
  }
}
