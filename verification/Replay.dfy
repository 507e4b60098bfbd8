/** Rebuilding the masks from the event log (ReplayMasksFromEvents in
    services/inventory/inventory/trips.go), compared with the live table. */
module Replay {
  import opened Wrappers
  import opened Bits
  import opened Inventory
  import opened Ownership
  import opened Laws

  // ---- the replay of one seat ---------------------------------------------------------

  function HeldBy(log: seq<Event>, s: Seat): Mask {
    if log == [] then 0
    else
      var before, e := HeldBy(log[..|log| - 1], s), log[|log| - 1];
      if e.seat != s then before
      else match e.kind
        case SEAT_HELD => Or(before, e.mask)
        case SEAT_RELEASED => AndNot(before, e.mask)
        case HOLD_EXPIRED => AndNot(before, e.mask)
        case SEAT_BOOKED => AndNot(before, e.mask)
        case _ => before
  }

  function SoldBy(log: seq<Event>, s: Seat): Mask {
    if log == [] then 0
    else
      var before, e := SoldBy(log[..|log| - 1], s), log[|log| - 1];
      if e.seat == s && e.kind == SEAT_BOOKED then Or(before, e.mask) else before
  }

  function At(m: map<SeatNo, Mask>, no: SeatNo): Mask { if no in m then m[no] else 0 }

  /** The loop of ReplayMasksFromEvents over the rows of one trip. */
  method ReplayMasksFromEvents(log: seq<Event>, trip: TripId) returns (hold: map<SeatNo, Mask>, sold: map<SeatNo, Mask>)
    ensures forall no :: At(hold, no) == HeldBy(log, Seat(trip, no)) && At(sold, no) == SoldBy(log, Seat(trip, no))
  {
    hold, sold := map[], map[];
    for i := 0 to |log|
      invariant forall no :: At(hold, no) == HeldBy(log[..i], Seat(trip, no)) && At(sold, no) == SoldBy(log[..i], Seat(trip, no))
    {
      var e := log[i];
      assert log[..i + 1][..i] == log[..i];
      if e.seat.trip == trip {
        var no := e.seat.no;
        if e.kind == SEAT_HELD {
          hold := hold[no := Or(At(hold, no), e.mask)];
        } else if e.kind == SEAT_RELEASED || e.kind == HOLD_EXPIRED {
          hold := hold[no := AndNot(At(hold, no), e.mask)];
        } else if e.kind == SEAT_BOOKED {
          hold, sold := hold[no := AndNot(At(hold, no), e.mask)], sold[no := Or(At(sold, no), e.mask)];
        }
      }
    }
    assert log[..|log|] == log;
  }

  // ---- the log mirrors the table ---------------------------------------------------------

  /** One segment: the rebuilt hold bit is the live one and a live sold bit is rebuilt. */
  ghost predicate Mirror(seats: map<Seat, SeatRow>, log: seq<Event>, s: Seat, k: nat) {
    var r := if s in seats then seats[s] else SeatRow(0, 0, 0);
    (Bit(HeldBy(log, s), k) <==> Bit(r.hold, k)) && (Bit(r.sold, k) ==> Bit(SoldBy(log, s), k))
  }

  ghost predicate Exact(seats: map<Seat, SeatRow>, log: seq<Event>, s: Seat, k: nat) {
    Bit(SoldBy(log, s), k) ==> s in seats && Bit(seats[s].sold, k)
  }

  ghost predicate Mirrors(db: Db, log: seq<Event>) { forall s, k: nat :: Mirror(db.seats, log, s, k) }
  ghost predicate Exactly(db: Db, log: seq<Event>) { forall s, k: nat :: Exact(db.seats, log, s, k) }

  /** What a batch of events of one kind does to one segment; repeats do not matter. */
  lemma {:induction false} BatchReplay(log: seq<Event>, kind: EventKind, trip: TripId, nos: seq<SeatNo>,
          ms: map<SeatNo, Mask>, s: Seat, k: nat)
    requires forall no :: no in nos ==> no in ms
    ensures var hit := s.trip == trip && s.no in nos && Bit(ms[s.no], k);
      && (Bit(HeldBy(log + Batch(kind, trip, nos, ms), s), k) <==>
            if hit && kind == SEAT_HELD then true
            else if hit && kind in {SEAT_RELEASED, HOLD_EXPIRED, SEAT_BOOKED} then false
            else Bit(HeldBy(log, s), k))
      && (Bit(SoldBy(log + Batch(kind, trip, nos, ms), s), k) <==> (hit && kind == SEAT_BOOKED) || Bit(SoldBy(log, s), k))
  {
    if nos == [] {
      assert log + Batch(kind, trip, nos, ms) == log;
    } else {
      var n := |nos| - 1;
      assert nos == nos[..n] + [nos[n]];
      BatchReplay(log, kind, trip, nos[..n], ms, s, k);
      var all := log + Batch(kind, trip, nos, ms);
      assert all[..|all| - 1] == log + Batch(kind, trip, nos[..n], ms);
      assert all[|all| - 1] == Event(kind, Seat(trip, nos[n]), ms[nos[n]]);
    }
  }

  /** The event that each move writes. */
  ghost predicate Records(mv: Move, kind: EventKind) {
    match mv
    case TakeHold => kind == SEAT_HELD
    case HoldToSold => kind == SEAT_BOOKED
    case BlockToSold => kind == SEAT_BOOKED
    case DropHold => kind in {SEAT_RELEASED, HOLD_EXPIRED}
    case Unsell => kind == SEAT_RELEASED
    case Block => kind == QUOTA_ALLOCATED
    case Unblock => kind == QUOTA_RELEASED
    case TakeSold => false
  }

  /** A batch of moves and its events keep the mirror, if nothing held is unsold or sold over. */
  lemma TouchMirror(seats: map<Seat, SeatRow>, log: seq<Event>, mv: Move, kind: EventKind, trip: TripId,
          nos: seq<SeatNo>, ms: map<SeatNo, Mask>, s: Seat, k: nat)
    requires Mirror(seats, log, s, k) && Records(mv, kind)
    requires forall no :: no in nos <==> no in ms
    requires s.trip == trip && s.no in ms ==> s in seats
    requires InRequest(trip, ms, s, k) && mv in {Unsell, BlockToSold} ==> !Bit(seats[s].hold, k)
    ensures Mirror(Touch(seats, trip, ms, mv), log + Batch(kind, trip, nos, ms), s, k)
    ensures Exact(seats, log, s, k) && (mv == Unsell ==> !InRequest(trip, ms, s, k)) ==>
              Exact(Touch(seats, trip, ms, mv), log + Batch(kind, trip, nos, ms), s, k)
    ensures InRequest(trip, ms, s, k) && mv == Unsell && Bit(seats[s].sold, k) ==>
              !Exact(Touch(seats, trip, ms, mv), log + Batch(kind, trip, nos, ms), s, k)
  {
    BatchReplay(log, kind, trip, nos, ms, s, k);
  }

  // ---- each operation keeps the mirror -------------------------------------------------------

  /** The operation takes sold segments back from a seat. */
  predicate Unsells(db: Db, op: Op) {
    || (op.OpUnsell? && op.h in db.holds && db.holds[op.h].status == CONFIRMED && ItemsOf(db, op.h) != map[])
    || (op.OpReassign? && Movable(db, op.h, op.oldNo, op.newNo))
  }

  lemma TouchMirrors(db: Db, own: Owners, log: seq<Event>, mv: Move, kind: EventKind, trip: TripId, nos: seq<SeatNo>,
          ms: map<SeatNo, Mask>)
    requires Refines(db, own) && Mirrors(db, log) && Records(mv, kind)
    requires (forall no :: no in nos <==> no in ms) && forall no :: no in ms ==> Seat(trip, no) in db.seats
    requires mv in {Unsell, BlockToSold} ==> forall s, k: nat :: InRequest(trip, ms, s, k) ==> !own(s, k).Held?
    ensures Mirrors(db.(seats := Touch(db.seats, trip, ms, mv)), log + Batch(kind, trip, nos, ms))
    ensures mv != Unsell && Exactly(db, log) ==> Exactly(db.(seats := Touch(db.seats, trip, ms, mv)), log + Batch(kind, trip, nos, ms))
  {
    forall s, k: nat ensures Mirror(Touch(db.seats, trip, ms, mv), log + Batch(kind, trip, nos, ms), s, k)
      ensures mv != Unsell && Exactly(db, log) ==> Exact(Touch(db.seats, trip, ms, mv), log + Batch(kind, trip, nos, ms), s, k)
    {
      assert Mirror(db.seats, log, s, k) && Shown(db, own, s, k);
      if Exactly(db, log) { assert Exact(db.seats, log, s, k); }
      TouchMirror(db.seats, log, mv, kind, trip, nos, ms, s, k);
    }
  }

  lemma OrderedMirrors(db: Db, own: Owners, log: seq<Event>, mv: Move, kind: EventKind, trip: TripId,
          ms: map<SeatNo, Mask>)
    requires Refines(db, own) && Mirrors(db, log) && Records(mv, kind)
    requires forall no :: no in ms ==> Seat(trip, no) in db.seats
    requires mv in {Unsell, BlockToSold} ==> forall s, k: nat :: InRequest(trip, ms, s, k) ==> !own(s, k).Held?
    ensures Mirrors(db.(seats := Touch(db.seats, trip, ms, mv)), log + SeatEvents(kind, trip, ms))
    ensures mv != Unsell && Exactly(db, log) ==> Exactly(db.(seats := Touch(db.seats, trip, ms, mv)), log + SeatEvents(kind, trip, ms))
  {
    TouchMirrors(db, own, log, mv, kind, trip, InOrder(ms.Keys), ms);
  }

  lemma SettleMirrors(db: Db, own: Owners, log: seq<Event>, h: HoldId, mv: Move, kind: EventKind, status: Status)
    requires Refines(db, own) && Mirrors(db, log) && Records(mv, kind) && h in db.holds
    requires (mv in {HoldToSold, DropHold} && db.holds[h].status == HELD) || (mv == Unsell && db.holds[h].status == CONFIRMED)
    ensures Mirrors(Settle(db, h, mv, status), log + SeatEvents(kind, db.holds[h].trip, ItemsOf(db, h)))
    ensures mv != Unsell && Exactly(db, log) ==>
              Exactly(Settle(db, h, mv, status), log + SeatEvents(kind, db.holds[h].trip, ItemsOf(db, h)))
  {
    var trip, ms := db.holds[h].trip, ItemsOf(db, h);
    if mv == Unsell {
      forall s, k: nat | InRequest(trip, ms, s, k) ensures !own(s, k).Held? { ItemOwns(db, own, ItemKey(h, s.no), k); }
    }
    OrderedMirrors(db, own, log, mv, kind, trip, ms);
    var db1 := db.(seats := Touch(db.seats, trip, ms, mv));
    assert Settle(db, h, mv, status).seats == db1.seats;
  }

  lemma {:induction false} SweepMirrors(db: Db, own: Owners, log: seq<Event>, dues: seq<HoldId>)
    requires Refines(db, own) && Mirrors(db, log) && Distinct(dues)
    requires forall h :: h in dues ==> h in db.holds && db.holds[h].status == HELD
    ensures Mirrors(Sweep(db, dues).db, log + Sweep(db, dues).log)
    ensures Exactly(db, log) ==> Exactly(Sweep(db, dues).db, log + Sweep(db, dues).log)
  {
    hide Refines, Mirrors, Exactly;
    if dues == [] {
      assert log + [] == log;
    } else {
      var init, h := dues[..|dues| - 1], dues[|dues| - 1];
      SweepMirrors(db, own, log, init);
      RefinesSweep(db, own, init);
      assert h !in init;
      SweptMirrors(Freed(own, init), log, Sweep(db, init), h);
    }
  }

  lemma OneMoreSwept(db: Db, own: Owners, log: seq<Event>, h: HoldId)
    requires Refines(db, own) && Mirrors(db, log) && h in db.holds && db.holds[h].status == HELD
    ensures var last := ReleaseBits(db, h, true);
      Mirrors(last.db, log + last.log) && (Exactly(db, log) ==> Exactly(last.db, log + last.log))
  {
    hide Refines, Mirrors, Exactly;
    SettleMirrors(db, own, log, h, DropHold, HOLD_EXPIRED, EXPIRED);
  }

  lemma SweptMirrors(own: Owners, log: seq<Event>, swept: Reply, h: HoldId)
    requires Refines(swept.db, own) && Mirrors(swept.db, log + swept.log) && h in swept.db.holds && swept.db.holds[h].status == HELD
    ensures var last := ReleaseBits(swept.db, h, true);
      Mirrors(last.db, log + (swept.log + last.log)) && (Exactly(swept.db, log + swept.log) ==> Exactly(last.db, log + (swept.log + last.log)))
  {
    hide Refines, Mirrors, Exactly;
    OneMoreSwept(swept.db, own, log + swept.log, h);
    var last := ReleaseBits(swept.db, h, true);
    assert log + (swept.log + last.log) == log + swept.log + last.log;
  }

  /** The two events of a Reassign, on one segment. */
  lemma MovedReplay(log: seq<Event>, from: Seat, to: Seat, mask: Mask, s: Seat, k: nat)
    requires from != to
    ensures var log2 := log + [Event(SEAT_RELEASED, from, mask), Event(SEAT_BOOKED, to, mask)];
      && (Bit(HeldBy(log2, s), k) <==> Bit(HeldBy(log, s), k) && !((s == from || s == to) && Bit(mask, k)))
      && (Bit(SoldBy(log2, s), k) <==> Bit(SoldBy(log, s), k) || (s == to && Bit(mask, k)))
  {
    var freed := log + [Event(SEAT_RELEASED, from, mask)];
    var log2 := log + [Event(SEAT_RELEASED, from, mask), Event(SEAT_BOOKED, to, mask)];
    assert freed[..|freed| - 1] == log && log2[..|log2| - 1] == freed;
  }

  /** One segment under Reassign, of a sale `h` owns. */
  lemma MovedMirror(db: Db, log: seq<Event>, h: HoldId, oldNo: SeatNo, newNo: SeatNo, s: Seat, k: nat)
    requires oldNo != newNo && Reassign(db, h, oldNo, newNo).out == Ok && Mirror(db.seats, log, s, k)
    requires var item := db.items[ItemKey(h, oldNo)]; var from, to := Seat(item.trip, oldNo), Seat(item.trip, newNo);
      Bit(item.mask, k) ==> !Bit(db.seats[from].hold, k) && Bit(db.seats[from].sold, k) && !Bit(db.seats[to].hold, k)
    ensures Mirror(Moved(db, h, oldNo, newNo).seats, log + Reassign(db, h, oldNo, newNo).log, s, k)
    ensures s == Seat(db.items[ItemKey(h, oldNo)].trip, oldNo) && Bit(db.items[ItemKey(h, oldNo)].mask, k) ==>
              !Exact(Moved(db, h, oldNo, newNo).seats, log + Reassign(db, h, oldNo, newNo).log, s, k)
  {
    var item := db.items[ItemKey(h, oldNo)];
    MovedReplay(log, Seat(item.trip, oldNo), Seat(item.trip, newNo), item.mask, s, k);
    hide HeldBy, SoldBy;
  }

  /** What Reassign finds on a segment it moves. */
  lemma MovedBits(db: Db, own: Owners, h: HoldId, oldNo: SeatNo, newNo: SeatNo, k: nat)
    requires Refines(db, own) && Guarded(db, OpReassign(h, oldNo, newNo)) && oldNo != newNo && Reassign(db, h, oldNo, newNo).out == Ok
    requires Bit(db.items[ItemKey(h, oldNo)].mask, k)
    ensures var item := db.items[ItemKey(h, oldNo)]; var from, to := Seat(item.trip, oldNo), Seat(item.trip, newNo);
      !Bit(db.seats[from].hold, k) && Bit(db.seats[from].sold, k) && !Bit(db.seats[to].hold, k)
  {
    var item := db.items[ItemKey(h, oldNo)];
    HeldIsNotSold(db, own, h, oldNo);
    ItemOwns(db, own, ItemKey(h, oldNo), k);
    assert Shown(db, own, Seat(item.trip, oldNo), k) && Shown(db, own, Seat(item.trip, newNo), k);
    FreeIsNobody(db, own, Seat(item.trip, newNo), k, item.mask);
  }

  lemma GrowMirrors(db: Db, own: Owners, log: seq<Event>, op: Op)
    requires Refines(db, own) && Mirrors(db, log) && (op.OpOpen? || op.OpAdd?) && Step(db, op).out == Ok
    ensures Mirrors(Step(db, op).db, log + Step(db, op).log)
    ensures Exactly(db, log) ==> Exactly(Step(db, op).db, log + Step(db, op).log)
  {
    assert log + Step(db, op).log == log;
    ZeroHasNoBits();
    NewSeats(db.seats, op.trip, if op.OpOpen? then op.segments else db.trips[op.trip], op.specs);
    forall s, k: nat ensures Mirror(Step(db, op).db.seats, log, s, k) { assert Mirror(db.seats, log, s, k); }
    forall s, k: nat ensures Exactly(db, log) ==> Exact(Step(db, op).db.seats, log, s, k) {
      if Exactly(db, log) { assert Exact(db.seats, log, s, k); }
    }
  }

  lemma WithdrawMirror(db: Db, log: seq<Event>, trip: TripId, no: SeatNo, s: Seat, k: nat)
    requires Mirror(db.seats, log, s, k) && trip in db.trips
    ensures var r := WithdrawSeat(db, trip, no);
      Mirror(r.db.seats, log + r.log, s, k) && (Exact(db.seats, log, s, k) ==> Exact(r.db.seats, log + r.log, s, k))
  {
    var ms := map[no := AllSegments(db.trips[trip])];
    BatchReplay(log, SEAT_BLOCKED, trip, [no], ms, s, k);
    assert WithdrawSeat(db, trip, no).log == Batch(SEAT_BLOCKED, trip, [no], ms);
  }

  lemma WithdrawMirrors(db: Db, log: seq<Event>, trip: TripId, no: SeatNo)
    requires Mirrors(db, log) && WithdrawSeat(db, trip, no).out == Ok
    ensures var r := WithdrawSeat(db, trip, no); Mirrors(r.db, log + r.log) && (Exactly(db, log) ==> Exactly(r.db, log + r.log))
  {
    var r := WithdrawSeat(db, trip, no);
    forall s, k: nat ensures Mirror(r.db.seats, log + r.log, s, k) && (Exactly(db, log) ==> Exact(r.db.seats, log + r.log, s, k)) {
      assert Mirror(db.seats, log, s, k);
      if Exactly(db, log) { assert Exact(db.seats, log, s, k); }
      WithdrawMirror(db, log, trip, no, s, k);
    }
  }

  lemma SellMirrors(db: Db, own: Owners, log: seq<Event>, op: Op)
    requires Refines(db, own) && Mirrors(db, log) && op.OpSell? && Step(db, op).out == Ok
    ensures Mirrors(Step(db, op).db, log + Step(db, op).log)
    ensures Exactly(db, log) ==> Exactly(Step(db, op).db, log + Step(db, op).log)
  {
    var ms := Each(op.seats, SegmentMask(op.board, op.drop).value);
    forall s, k: nat | InRequest(op.trip, ms, s, k) ensures !own(s, k).Held? {
      QuotaOwns(db, own, QuotaKey(op.counter, op.trip, s.no, ms[s.no]), k);
    }
    OrderedMirrors(db, own, log, BlockToSold, SEAT_BOOKED, op.trip, ms);
  }

  lemma UnsellMirrors(db: Db, own: Owners, log: seq<Event>, h: HoldId)
    requires Refines(db, own) && Mirrors(db, log) && h in db.holds && db.holds[h].status == CONFIRMED
    ensures var r := ReleaseConfirmed(db, h);
      Mirrors(r.db, log + r.log) && (Exactly(db, log) && ItemsOf(db, h) == map[] ==> Exactly(r.db, log + r.log))
  {
    hide Refines;
    SettleMirrors(db, own, log, h, Unsell, SEAT_RELEASED, RELEASED);
    if Exactly(db, log) && ItemsOf(db, h) == map[] {
      var r := ReleaseConfirmed(db, h);
      assert log + r.log == log && r.db.seats == db.seats;
    }
  }

  lemma ReassignMirrors(db: Db, own: Owners, log: seq<Event>, h: HoldId, oldNo: SeatNo, newNo: SeatNo)
    requires Refines(db, own) && Mirrors(db, log) && Guarded(db, OpReassign(h, oldNo, newNo))
    requires Reassign(db, h, oldNo, newNo).out == Ok
    ensures var r := Reassign(db, h, oldNo, newNo);
      Mirrors(r.db, log + r.log) && (oldNo == newNo && Exactly(db, log) ==> Exactly(r.db, log + r.log))
  {
    var r := Reassign(db, h, oldNo, newNo);
    if oldNo == newNo {
      assert log + r.log == log;
    } else {
      forall s, k: nat ensures Mirror(r.db.seats, log + r.log, s, k) {
        assert Mirror(db.seats, log, s, k);
        if Bit(db.items[ItemKey(h, oldNo)].mask, k) { MovedBits(db, own, h, oldNo, newNo, k); }
        MovedMirror(db, log, h, oldNo, newNo, s, k);
      }
    }
  }

  lemma HoldOpMirrors(db: Db, own: Owners, log: seq<Event>, op: Op)
    requires Refines(db, own) && Mirrors(db, log) && Step(db, op).out == Ok && (op.OpConfirm? || op.OpRelease? || op.OpUnsell?)
    ensures Mirrors(Step(db, op).db, log + Step(db, op).log)
    ensures Exactly(db, log) && !Unsells(db, op) ==> Exactly(Step(db, op).db, log + Step(db, op).log)
  {
    hide Refines, Mirrors, Exactly;
    assert log + [] == log;
    var h := op.h;
    match op
    case OpConfirm(_) =>
      if db.holds[h].status == HELD { SettleMirrors(db, own, log, h, HoldToSold, SEAT_BOOKED, CONFIRMED); }
    case OpRelease(_, expired) =>
      if db.holds[h].status == HELD {
        SettleMirrors(db, own, log, h, DropHold, if expired then HOLD_EXPIRED else SEAT_RELEASED, if expired then EXPIRED else RELEASED);
      }
    case OpUnsell(_) =>
      if db.holds[h].status == CONFIRMED { UnsellMirrors(db, own, log, h); }
  }

  lemma TakeMirrors(db: Db, own: Owners, log: seq<Event>, op: Op)
    requires Refines(db, own) && Mirrors(db, log) && Step(db, op).out == Ok && (op.OpAcquire? || op.OpAllocate?)
    ensures Mirrors(Step(db, op).db, log + Step(db, op).log)
    ensures Exactly(db, log) ==> Exactly(Step(db, op).db, log + Step(db, op).log)
  {
    match op
    case OpAcquire(_, trip, seats, board, drop, _) =>
      OrderedMirrors(db, own, log, TakeHold, SEAT_HELD, trip, Each(seats, SegmentMask(board, drop).value));
    case OpAllocate(_, trip, seats, board, drop) =>
      OrderedMirrors(db, own, log, Block, QUOTA_ALLOCATED, trip, Each(seats, SegmentMask(board, drop).value));
  }

  lemma ReturnMirrors(db: Db, own: Owners, log: seq<Event>, c: CounterId, trip: TripId, seats: seq<SeatNo>, mask: Mask)
    requires Refines(db, own) && Mirrors(db, log)
    ensures var r := ReleaseQuota(db, c, trip, seats, mask);
      Mirrors(r.db, log + r.log) && (Exactly(db, log) ==> Exactly(r.db, log + r.log))
  {
    var back := Returnable(db, c, trip, seats, mask);
    assert forall no :: no in back ==> QuotaKey(c, trip, no, mask) in db.quota;
    TouchMirrors(db, own, log, Unblock, QUOTA_RELEASED, trip, back, Each(back, mask));
  }

  /** After every operation the rebuilt hold masks are the live ones, and every live sold segment is rebuilt. */
  lemma StepMirrors(db: Db, own: Owners, log: seq<Event>, op: Op)
    requires Refines(db, own) && Mirrors(db, log) && Guarded(db, op)
    ensures Mirrors(Step(db, op).db, log + Step(db, op).log)
    ensures Exactly(db, log) && !Unsells(db, op) ==> Exactly(Step(db, op).db, log + Step(db, op).log)
  {
    hide Refines, Mirrors, Exactly;
    StepRefines(db, own, op);
    if Step(db, op).out != Ok { assert log + [] == log; }
    else if op.OpOpen? || op.OpAdd? { GrowMirrors(db, own, log, op); }
    else if op.OpConfirm? || op.OpRelease? || op.OpUnsell? { HoldOpMirrors(db, own, log, op); }
    else if op.OpAcquire? || op.OpAllocate? { TakeMirrors(db, own, log, op); }
    else if op.OpReturn? { ReturnMirrors(db, own, log, op.counter, op.trip, op.seats, op.mask); }
    else if op.OpSweep? { SweepMirrors(db, own, log, op.dues); }
    else if op.OpSell? { SellMirrors(db, own, log, op); }
    else if op.OpReassign? { ReassignMirrors(db, own, log, op.h, op.oldNo, op.newNo); }
    else { WithdrawMirrors(db, log, op.trip, op.no); }
  }

  /** The replay keeps agreeing with the live sold masks exactly until sold segments are taken back:
      SEAT_RELEASED never clears a rebuilt sold bit. */
  lemma ReplayAgreesIff(db: Db, own: Owners, log: seq<Event>, op: Op)
    requires Refines(db, own) && Mirrors(db, log) && Exactly(db, log) && Guarded(db, op)
    ensures Exactly(Step(db, op).db, log + Step(db, op).log) <==> !Unsells(db, op)
  {
    StepMirrors(db, own, log, op);
    if Unsells(db, op) {
      if op.OpUnsell? { UnsellDiverges(db, own, log, op.h); } else { ReassignDiverges(db, own, log, op.h, op.oldNo, op.newNo); }
    }
  }

  lemma UnsellDiverges(db: Db, own: Owners, log: seq<Event>, h: HoldId)
    requires Refines(db, own) && Mirrors(db, log) && Unsells(db, OpUnsell(h))
    ensures var r := ReleaseConfirmed(db, h); !Exactly(r.db, log + r.log)
  {
    var r, ms, trip := ReleaseConfirmed(db, h), ItemsOf(db, h), db.holds[h].trip;
    var no :| no in ms;
    var s, k := Seat(trip, no), LowBit(ms[no]);
    ItemOwns(db, own, ItemKey(h, no), k);
    assert Mirror(db.seats, log, s, k) && Shown(db, own, s, k);
    TouchMirror(db.seats, log, Unsell, SEAT_RELEASED, trip, InOrder(ms.Keys), ms, s, k);
    assert !Exact(r.db.seats, log + r.log, s, k);
  }

  lemma ReassignDiverges(db: Db, own: Owners, log: seq<Event>, h: HoldId, oldNo: SeatNo, newNo: SeatNo)
    requires Refines(db, own) && Mirrors(db, log) && Unsells(db, OpReassign(h, oldNo, newNo)) && Guarded(db, OpReassign(h, oldNo, newNo))
    ensures var r := Reassign(db, h, oldNo, newNo); !Exactly(r.db, log + r.log)
  {
    var item := db.items[ItemKey(h, oldNo)];
    var s, k := Seat(item.trip, oldNo), LowBit(item.mask);
    assert Mirror(db.seats, log, s, k);
    MovedBits(db, own, h, oldNo, newNo, k);
    MovedMirror(db, log, h, oldNo, newNo, s, k);
  }

  predicate NeverUnsells(ops: seq<Op>) {
    ops == [] || (NeverUnsells(ops[..|ops| - 1]) && !Unsells(Run(ops[..|ops| - 1]).db, ops[|ops| - 1]))
  }

  lemma {:induction false} RunMirrors(ops: seq<Op>)
    requires GuardedRun(ops)
    ensures Mirrors(Run(ops).db, Run(ops).log)
    ensures NeverUnsells(ops) ==> Exactly(Run(ops).db, Run(ops).log)
  {
    hide Refines;
    if ops == [] {
      ZeroHasNoBits();
    } else {
      var n := |ops| - 1;
      RunMirrors(ops[..n]);
      RunRefines(ops[..n]);
      StepMirrors(Run(ops[..n]).db, OwnersOf(ops[..n]), Run(ops[..n]).log, ops[n]);
    }
  }

  /** The masks rebuilt from the log of any run: hold masks equal the live ones, sold masks contain
      them, and equal them when the run never takes a sold segment back. */
  lemma ReplayMatchesLive(ops: seq<Op>, s: Seat)
    requires GuardedRun(ops) && s in Run(ops).db.seats
    ensures HeldBy(Run(ops).log, s) == Run(ops).db.seats[s].hold
    ensures Covers(SoldBy(Run(ops).log, s), Run(ops).db.seats[s].sold)
    ensures NeverUnsells(ops) ==> SoldBy(Run(ops).log, s) == Run(ops).db.seats[s].sold
  {
    RunMirrors(ops);
    SeatMirrors(Run(ops).db, Run(ops).log, s);
  }

  lemma SeatMirrors(db: Db, log: seq<Event>, s: Seat)
    requires Mirrors(db, log) && s in db.seats
    ensures HeldBy(log, s) == db.seats[s].hold && Covers(SoldBy(log, s), db.seats[s].sold)
    ensures Exactly(db, log) ==> SoldBy(log, s) == db.seats[s].sold
  {
    forall k: nat ensures Bit(HeldBy(log, s), k) <==> Bit(db.seats[s].hold, k)
      ensures Bit(db.seats[s].sold, k) ==> Bit(SoldBy(log, s), k)
    {
      assert Mirror(db.seats, log, s, k);
    }
    Extensional(HeldBy(log, s), db.seats[s].hold);
    if Exactly(db, log) {
      forall k: nat ensures Bit(SoldBy(log, s), k) <==> Bit(db.seats[s].sold, k) { assert Exact(db.seats, log, s, k); }
      Extensional(SoldBy(log, s), db.seats[s].sold);
    }
  }
}
