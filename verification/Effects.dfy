/** What each transaction of the inventory does, row by row and segment by segment: every guard and every effect
    is spelled out in columns, bits and stops, independently of how `Inventory` puts them together. */
module Effects {
  import opened Wrappers
  import opened Bits
  import opened Inventory
  import opened Ownership
  import opened Laws

  /** Segment `k` is in exactly these masks of the row. */
  ghost predicate Shows(r: SeatRow, k: nat, held: bool, sold: bool, blocked: bool) {
    (Bit(r.hold, k) <==> held) && (Bit(r.sold, k) <==> sold) && (Bit(r.blocked, k) <==> blocked)
  }

  /** Nobody holds, has bought or blocks a segment between the stops. */
  ghost predicate Vacant(r: SeatRow, board: int, drop: int) {
    forall k: nat :: board <= k < drop ==> Shows(r, k, false, false, false)
  }

  ghost predicate OnLeg(m: Mask, board: int, drop: int) { forall k: nat :: Bit(m, k) <==> board <= k < drop }

  predicate IsLeg(board: int, drop: int) { 0 <= board < drop <= 62 }

  /** All tables but those of the seats and the one that is named stay as they are. */
  ghost predicate OthersStay(db: Db, db2: Db, holds: bool, items: bool, quota: bool) {
    && db2.trips == db.trips && db2.seats.Keys == db.seats.Keys
    && (!holds ==> db2.holds == db.holds) && (!items ==> db2.items == db.items) && (!quota ==> db2.quota == db.quota)
  }

  lemma FreeIsVacant(r: SeatRow, board: int, drop: int)
    requires SegmentMask(board, drop).Some?
    ensures Free(r, SegmentMask(board, drop).value) <==> Vacant(r, board, drop)
  {
    JourneyBits(board, drop);
    var m := SegmentMask(board, drop).value;
    if Vacant(r, board, drop) {
      forall k: nat ensures !(Bit(Or(Or(r.hold, r.sold), r.blocked), k) && Bit(m, k)) {
        if board <= k < drop { assert Shows(r, k, false, false, false); }
      }
    }
    if Free(r, m) {
      forall k: nat | board <= k < drop ensures Shows(r, k, false, false, false) { assert Bit(m, k); }
    }
  }

  lemma LegMask(board: int, drop: int)
    ensures SegmentMask(board, drop).Some? <==> IsLeg(board, drop)
    ensures SegmentMask(board, drop).Some? ==> OnLeg(SegmentMask(board, drop).value, board, drop)
  {
    JourneyBits(board, drop);
  }

  /** The seats that FreeSeats lists, SeatMap calls available and CountAvailable counts are exactly the vacant ones. */
  lemma FreeSeatsAreVacant(db: Db, trip: TripId, board: int, drop: int, no: SeatNo)
    requires SegmentMask(board, drop).Some?
    ensures no in FreeFor(db, trip, SegmentMask(board, drop).value) <==>
            Seat(trip, no) in db.seats && Vacant(db.seats[Seat(trip, no)], board, drop)
  {
    InFreeFor(db, trip, SegmentMask(board, drop).value, no);
    if Seat(trip, no) in db.seats { FreeIsVacant(db.seats[Seat(trip, no)], board, drop); }
  }

  ghost predicate AllVacant(db: Db, trip: TripId, nos: seq<SeatNo>, board: int, drop: int) {
    forall no :: no in nos ==> Seat(trip, no) in db.seats && Vacant(db.seats[Seat(trip, no)], board, drop)
  }

  lemma ReadyIsVacant(db: Db, trip: TripId, nos: seq<SeatNo>, board: int, drop: int, mv: Move)
    requires SegmentMask(board, drop).Some? && mv in {TakeHold, Block}
    ensures AllReady(db.seats, trip, Each(nos, SegmentMask(board, drop).value), mv) <==> AllVacant(db, trip, nos, board, drop)
  {
    var m := SegmentMask(board, drop).value;
    assert forall no :: no in nos <==> no in Each(nos, m);
    forall no | Seat(trip, no) in db.seats
      ensures Ready(mv, db.seats[Seat(trip, no)], m) <==> Vacant(db.seats[Seat(trip, no)], board, drop)
    {
      FreeIsVacant(db.seats[Seat(trip, no)], board, drop);
    }
    hide Free, Vacant;
  }

  predicate Asked(trip: TripId, nos: seq<SeatNo>, board: int, drop: int, s: Seat, k: nat) {
    s.trip == trip && s.no in nos && board <= k < drop
  }

  // ---- holds ---------------------------------------------------------------------------------

  lemma AcquireOutcome(db: Db, h: HoldId, trip: TripId, nos: seq<SeatNo>, board: int, drop: int, expires: int)
    ensures AcquireHold(db, h, trip, nos, board, drop, expires).out ==
      if !IsLeg(board, drop) then ErrBadSegments
      else if nos == [] then ErrNoSeats
      else if !Distinct(nos) || !AllVacant(db, trip, nos, board, drop) then ErrSeatUnavailable
      else if h in db.holds then ErrDuplicateKey else Ok
  {
    LegMask(board, drop);
    if IsLeg(board, drop) { ReadyIsVacant(db, trip, nos, board, drop, TakeHold); }
    hide AllReady, AllVacant, Acquired, SeatEvents, SegmentMask;
  }

  /** A granted hold: its row with the deadline, an item per seat for the leg, and exactly these segments held. */
  lemma AcquireRows(db: Db, h: HoldId, trip: TripId, nos: seq<SeatNo>, board: int, drop: int, expires: int)
    requires AcquireHold(db, h, trip, nos, board, drop, expires).out == Ok
    ensures var db2 := AcquireHold(db, h, trip, nos, board, drop, expires).db;
      && OthersStay(db, db2, true, true, false) && h !in db.holds && db2.holds == db.holds[h := HoldRow(trip, HELD, expires)]
      && (forall i :: i in db2.items <==> i in db.items || (i.hold == h && i.no in nos))
      && (forall i :: i in db2.items && !(i.hold == h && i.no in nos) ==> db2.items[i] == db.items[i])
      && (forall no :: no in nos ==> db2.items[ItemKey(h, no)].trip == trip && OnLeg(db2.items[ItemKey(h, no)].mask, board, drop))
      && forall s, k: nat :: s in db.seats ==>
           var r := db.seats[s];
           Shows(db2.seats[s], k, Bit(r.hold, k) || Asked(trip, nos, board, drop, s, k), Bit(r.sold, k), Bit(r.blocked, k))
  {
    LegMask(board, drop);
    hide SegmentMask, AllReady, Distinct, SeatEvents;
  }

  /** The segments of the hold on a seat of its trip. */
  predicate ItemHas(db: Db, h: HoldId, s: Seat, k: nat) {
    h in db.holds && s.trip == db.holds[h].trip && ItemKey(h, s.no) in db.items && Bit(db.items[ItemKey(h, s.no)].mask, k)
  }

  /** Exactly this hold changes, in its status only, and nothing but the seat rows with it. */
  ghost predicate OnlyStatus(db: Db, db2: Db, h: HoldId, status: Status) {
    OthersStay(db, db2, true, false, false) && h in db.holds && db2.holds == db.holds[h := HoldRow(db.holds[h].trip, status, db.holds[h].expires)]
  }

  lemma ConfirmRows(db: Db, own: Owners, h: HoldId)
    requires Refines(db, own)
    ensures var r := ConfirmHold(db, h);
      && r.out == (if h !in db.holds then ErrHoldNotFound
                   else if db.holds[h].status == HELD || db.holds[h].status == CONFIRMED then Ok else ErrHoldNotActive)
      && (!(h in db.holds && db.holds[h].status == HELD) ==> r.db == db)
      && (h in db.holds && db.holds[h].status == HELD ==>
            && OnlyStatus(db, r.db, h, CONFIRMED)
            && forall s, k: nat :: s in db.seats ==>
                 Shows(r.db.seats[s], k, Bit(db.seats[s].hold, k) && !ItemHas(db, h, s, k),
                       Bit(db.seats[s].sold, k) || ItemHas(db, h, s, k), Bit(db.seats[s].blocked, k)))
  {
    HoldIsNeverLost(db, own, h);
    hide Refines, AllReady, SeatEvents;
  }

  /** A release that is asked for, and one that the sweep makes, differ in the status only. */
  lemma ReleaseRows(db: Db, h: HoldId, expired: bool)
    ensures var r := ReleaseHold(db, h, expired);
      && r.out == (if h !in db.holds then ErrHoldNotFound else Ok)
      && (!(h in db.holds && db.holds[h].status == HELD) ==> r.db == db)
      && (h in db.holds && db.holds[h].status == HELD ==>
            && OnlyStatus(db, r.db, h, if expired then EXPIRED else RELEASED)
            && forall s, k: nat :: s in db.seats ==>
                 Shows(r.db.seats[s], k, Bit(db.seats[s].hold, k) && !ItemHas(db, h, s, k), Bit(db.seats[s].sold, k), Bit(db.seats[s].blocked, k)))
  {
    var r := ReleaseHold(db, h, expired);
    if h in db.holds && db.holds[h].status == HELD {
      assert r == ReleaseBits(db, h, expired);
      forall s, k: nat | s in db.seats
        ensures Shows(r.db.seats[s], k, Bit(db.seats[s].hold, k) && !ItemHas(db, h, s, k), Bit(db.seats[s].sold, k), Bit(db.seats[s].blocked, k))
      {
        ReleasedCell(db, h, s, k, expired);
      }
    }
    hide SeatEvents, ItemsOf, Apply;
  }

  lemma UnsellRows(db: Db, h: HoldId)
    ensures var r := ReleaseConfirmed(db, h);
      && r.out == (if h !in db.holds then ErrHoldNotFound else Ok)
      && (!(h in db.holds && db.holds[h].status == CONFIRMED) ==> r.db == db)
      && (h in db.holds && db.holds[h].status == CONFIRMED ==>
            && OnlyStatus(db, r.db, h, RELEASED)
            && forall s, k: nat :: s in db.seats ==>
                 Shows(r.db.seats[s], k, Bit(db.seats[s].hold, k), Bit(db.seats[s].sold, k) && !ItemHas(db, h, s, k), Bit(db.seats[s].blocked, k)))
  {
    hide SeatEvents;
  }

  // ---- the sweep -------------------------------------------------------------------------------

  /** HELD, and past its deadline. */
  predicate Overdue(db: Db, h: HoldId,
          now: int) { h in db.holds && db.holds[h].status == HELD && db.holds[h].expires < now }

  predicate SweptHas(db: Db, dues: seq<HoldId>, s: Seat, k: nat) { exists h :: h in dues && ItemHas(db, h, s, k) }

  lemma {:induction false} SweptCell(db: Db, dues: seq<HoldId>, s: Seat, k: nat)
    requires (forall h :: h in dues ==> h in db.holds) && s in db.seats
    ensures var db2 := Sweep(db, dues).db;
      s in db2.seats && Shows(db2.seats[s], k, Bit(db.seats[s].hold, k) && !SweptHas(db, dues, s, k), Bit(db.seats[s].sold, k), Bit(db.seats[s].blocked, k))
  {
    if dues != [] {
      var init, last := dues[..|dues| - 1], dues[|dues| - 1];
      assert dues == init + [last];
      SweptCell(db, init, s, k);
      SweptTables(db, init);
      assert SweptHas(db, dues, s, k) <==> SweptHas(db, init, s, k) || ItemHas(db, last, s, k);
      hide Sweep, SweptHas;
      ReleasedCell(Sweep(db, init).db, last, s, k, true);
      SweepLast(db, dues);
    }
  }

  lemma SweepLast(db: Db, dues: seq<HoldId>)
    requires dues != [] && forall h :: h in dues ==> h in db.holds
    ensures var init, last := dues[..|dues| - 1], dues[|dues| - 1];
      last in Sweep(db, init).db.holds && Sweep(db, dues).db == ReleaseBits(Sweep(db, init).db, last, true).db
  {
  }

  lemma ReleasedCell(db: Db, h: HoldId, s: Seat, k: nat, expired: bool)
    requires h in db.holds && s in db.seats
    ensures var r := ReleaseBits(db, h, expired).db;
      s in r.seats && Shows(r.seats[s], k, Bit(db.seats[s].hold, k) && !ItemHas(db, h, s, k), Bit(db.seats[s].sold, k), Bit(db.seats[s].blocked, k))
  {
  }

  lemma {:induction false} SweptTables(db: Db, dues: seq<HoldId>)
    requires forall h :: h in dues ==> h in db.holds
    ensures var db2 := Sweep(db, dues).db;
      && OthersStay(db, db2, true, false, false) && db2.holds.Keys == db.holds.Keys
      && (forall h :: h in db.holds ==> db2.holds[h] == if h in dues then HoldRow(db.holds[h].trip, EXPIRED, db.holds[h].expires) else db.holds[h])
  {
    if dues != [] {
      assert dues == dues[..|dues| - 1] + [dues[|dues| - 1]];
      SweptTables(db, dues[..|dues| - 1]);
    }
  }

  /** A sweep expires only holds that are HELD and past their deadline, each as a whole, and leaves every other alone. */
  lemma SweepRows(db: Db, dues: seq<HoldId>, now: int)
    ensures var r := SweepExpired(db, dues, now);
      && (r.out == Ok <==> Distinct(dues) && forall h :: h in dues ==> Overdue(db, h, now))
      && (r.out != Ok ==> r.db == db)
      && (forall h :: h in db.holds ==> h in r.db.holds)
      && (forall h :: h in db.holds && r.db.holds[h] != db.holds[h] ==>
            && h in dues && db.holds[h].status == HELD && db.holds[h].expires < now
            && r.db.holds[h] == HoldRow(db.holds[h].trip, EXPIRED, db.holds[h].expires))
      && (r.out == Ok ==>
            && OthersStay(db, r.db, true, false, false) && (forall h :: h in dues ==> h in db.holds && r.db.holds[h].status == EXPIRED)
            && forall s, k: nat :: s in db.seats ==>
                 Shows(r.db.seats[s], k, Bit(db.seats[s].hold, k) && !SweptHas(db, dues, s, k), Bit(db.seats[s].sold, k), Bit(db.seats[s].blocked, k)))
  {
    assert forall h :: Due(db, h, now) <==> Overdue(db, h, now);
    hide Sweep, Shows, SweptHas;
    if Sweepable(db, dues, now) {
      SweptTables(db, dues);
      forall s, k: nat | s in db.seats
        ensures Shows(Sweep(db, dues).db.seats[s], k, Bit(db.seats[s].hold, k) && !SweptHas(db, dues, s, k), Bit(db.seats[s].sold, k), Bit(db.seats[s].blocked, k))
      {
        SweptCell(db, dues, s, k);
      }
    }
  }

  /** The operation neither settles the hold nor is a sweep after the deadline `e`. */
  predicate BeforeDeadline(op: Op, h: HoldId, e: int) {
    match op
    case OpConfirm(g) => g != h
    case OpRelease(g, _) => g != h
    case OpUnsell(g) => g != h
    case OpSweep(_, now) => now <= e
    case _ => true
  }

  lemma HeldUntilDeadline(db: Db, op: Op, h: HoldId)
    requires h in db.holds && db.holds[h].status == HELD && BeforeDeadline(op, h, db.holds[h].expires)
    ensures h in Step(db, op).db.holds && Step(db, op).db.holds[h] == db.holds[h]
  {
    if op.OpSweep? { SweepRows(db, op.dues, op.now); hide SweepExpired, Shows, SweptHas; }
    else if op.OpConfirm? || op.OpRelease? || op.OpUnsell? { OtherHoldStays(db, op, h); hide Step; }
    else if op.OpAcquire? || op.OpAllocate? || op.OpSell? { TakingKeepsHolds(db, op, h); hide Step; }
    else { MovingKeepsHolds(db, op, h); hide Step; }
  }

  lemma OtherHoldStays(db: Db, op: Op, h: HoldId)
    requires h in db.holds && (op.OpConfirm? || op.OpRelease? || op.OpUnsell?) && op.h != h
    ensures h in Step(db, op).db.holds && Step(db, op).db.holds[h] == db.holds[h]
  {
    hide Touch, AllReady, SeatEvents, ItemsOf;
  }

  lemma {:induction false} HeldThroughRun(db: Db, ops: seq<Op>, h: HoldId)
    requires h in db.holds && db.holds[h].status == HELD && forall op :: op in ops ==> BeforeDeadline(op, h, db.holds[h].expires)
    ensures h in RunFrom(db, ops).holds && RunFrom(db, ops).holds[h] == db.holds[h]
    decreases |ops|
  {
    hide Step;
    if ops != [] {
      HeldUntilDeadline(db, ops[0], h);
      HeldThroughRun(Step(db, ops[0]).db, ops[1..], h);
    }
  }

  /** A hold that was granted until `e` is kept, with that deadline, through any traffic and any sweeps up to
      and including `e`, as long as nobody confirms or releases it: no passenger loses a seat in the middle of
      the checkout. */
  lemma DeadlineIsHonoured(db: Db, h: HoldId, trip: TripId, nos: seq<SeatNo>, board: int, drop: int, e: int,
          ops: seq<Op>)
    requires AcquireHold(db, h, trip, nos, board, drop, e).out == Ok && forall op :: op in ops ==> BeforeDeadline(op, h, e)
    ensures var last := RunFrom(AcquireHold(db, h, trip, nos, board, drop, e).db, ops);
      h in last.holds && last.holds[h] == HoldRow(trip, HELD, e)
  {
    AcquireRows(db, h, trip, nos, board, drop, e);
    HeldThroughRun(AcquireHold(db, h, trip, nos, board, drop, e).db, ops, h);
    hide AcquireHold, Shows;
  }

  // ---- counter quota ---------------------------------------------------------------------------

  lemma AllocateOutcome(db: Db, c: CounterId, trip: TripId, nos: seq<SeatNo>, board: int, drop: int)
    ensures AllocateQuota(db, c, trip, nos, board, drop).out ==
      if nos == [] then ErrNoSeats
      else if |nos| > 8 then ErrQuotaTooLarge
      else if !IsLeg(board, drop) then ErrBadSegments
      else if !Distinct(nos) || !AllVacant(db, trip, nos, board, drop) then ErrSeatUnavailable else Ok
  {
    LegMask(board, drop);
    if IsLeg(board, drop) { ReadyIsVacant(db, trip, nos, board, drop, Block); }
    hide AllReady, AllVacant, Allocated, SeatEvents, SegmentMask;
  }

  /** The quota rows of these seats for this leg get a status, and no other row changes. */
  ghost predicate QuotaSet(db: Db, db2: Db, c: CounterId, trip: TripId, nos: seq<SeatNo>, mask: Mask,
          status: QuotaStatus) {
    && (forall q :: q in db2.quota <==> q in db.quota || (q.counter == c && q.trip == trip && q.no in nos && q.mask == mask))
    && (forall q :: q in db2.quota ==>
          db2.quota[q] == if q.counter == c && q.trip == trip && q.no in nos && q.mask == mask then status
                          else if q in db.quota then db.quota[q] else status)
  }

  lemma AllocateRows(db: Db, c: CounterId, trip: TripId, nos: seq<SeatNo>, board: int, drop: int)
    requires AllocateQuota(db, c, trip, nos, board, drop).out == Ok
    ensures var db2 := AllocateQuota(db, c, trip, nos, board, drop).db;
      && OthersStay(db, db2, false, false, true) && QuotaSet(db, db2, c, trip, nos, SegmentMask(board, drop).value, QuotaAllocated)
      && forall s, k: nat :: s in db.seats ==>
           var r := db.seats[s];
           Shows(db2.seats[s], k, Bit(r.hold, k), Bit(r.sold, k), Bit(r.blocked, k) || Asked(trip, nos, board, drop, s, k))
  {
    LegMask(board, drop);
    hide SegmentMask, AllReady, Distinct, SeatEvents;
  }

  predicate Owns(db: Db, c: CounterId, trip: TripId, no: SeatNo, mask: Mask) {
    var q := QuotaKey(c, trip, no, mask);
    q in db.quota && db.quota[q] == QuotaAllocated
  }

  /** Of the seats that are asked for, those that are this counter's under exactly this mask go back on sale. */
  lemma ReturnRows(db: Db, c: CounterId, trip: TripId, nos: seq<SeatNo>, mask: Mask)
    ensures var r := ReleaseQuota(db, c, trip, nos, mask);
      && r.out == Ok && OthersStay(db, r.db, false, false, true) && r.db.quota.Keys == db.quota.Keys
      && forall q :: q in db.quota ==>
           r.db.quota[q] == if q.counter == c && q.trip == trip && q.no in nos && q.mask == mask && db.quota[q] == QuotaAllocated
                            then QuotaReleased else db.quota[q]
  {
    hide Returnable;
  }

  lemma ReturnBits(db: Db, c: CounterId, trip: TripId, nos: seq<SeatNo>, mask: Mask, s: Seat, k: nat)
    requires s in db.seats
    ensures var seats, r := ReleaseQuota(db, c, trip, nos, mask).db.seats, db.seats[s];
      var back := s.trip == trip && s.no in nos && Owns(db, c, trip, s.no, mask) && Bit(mask, k);
      s in seats && Shows(seats[s], k, Bit(r.hold, k), Bit(r.sold, k), Bit(r.blocked, k) && !back)
  {
    hide Returnable, QuotaRows, Batch;
    var ms := Each(Returnable(db, c, trip, nos, mask), mask);
    assert s.no in ms <==> s.no in nos && InQuota(db, QuotaKey(c, trip, s.no, mask));
    UnblockedCell(db.seats, trip, ms, s, k);
    hide Touch, Each;
  }

  lemma UnblockedCell(seats: map<Seat, SeatRow>, trip: TripId, ms: map<SeatNo, Mask>, s: Seat, k: nat)
    requires s in seats
    ensures var r := Touch(seats, trip, ms, Unblock);
      s in r && Shows(r[s], k, Bit(seats[s].hold, k), Bit(seats[s].sold, k), Bit(seats[s].blocked, k) && !(s.trip == trip && s.no in ms && Bit(ms[s.no], k)))
  {
  }

  lemma SellOutcome(db: Db, own: Owners, h: HoldId, c: CounterId, trip: TripId, nos: seq<SeatNo>, board: int,
          drop: int, now: int)
    requires Refines(db, own)
    ensures SellQuota(db, h, c, trip, nos, board, drop, now).out ==
      if !IsLeg(board, drop) then ErrBadSegments
      else if nos == [] then ErrNoSeats
      else if h in db.holds then ErrDuplicateKey
      else if !Distinct(nos) || !(forall no :: no in nos ==>
                 var q := QuotaKey(c, trip, no, SegmentMask(board, drop).value); q in db.quota && db.quota[q] == QuotaAllocated) then ErrNotInQuota
      else Ok
  {
    hide Refines;
    LegMask(board, drop);
    if IsLeg(board, drop) {
      var ms := Each(nos, SegmentMask(board, drop).value);
      assert forall no :: no in nos <==> no in ms;
      if Owned(db, c, trip, ms) { QuotaIsAlwaysBlocked(db, own, c, trip, ms); }
    }
    hide AllReady, QuotaSale, SeatEvents, SegmentMask;
  }

  /** An offline sale: a CONFIRMED hold with its items, quota rows that are sold, and blocked segments that become sold. */
  lemma SellRows(db: Db, h: HoldId, c: CounterId, trip: TripId, nos: seq<SeatNo>, board: int, drop: int, now: int)
    requires SellQuota(db, h, c, trip, nos, board, drop, now).out == Ok
    ensures var db2 := SellQuota(db, h, c, trip, nos, board, drop, now).db;
      && OthersStay(db, db2, true, true, true) && db2.holds == db.holds[h := HoldRow(trip, CONFIRMED, now)]
      && QuotaSet(db, db2, c, trip, nos, SegmentMask(board, drop).value, QuotaSold)
      && (forall i :: i in db2.items <==> i in db.items || (i.hold == h && i.no in nos))
      && (forall i :: i in db2.items && !(i.hold == h && i.no in nos) ==> db2.items[i] == db.items[i])
      && (forall no :: no in nos ==> db2.items[ItemKey(h, no)].trip == trip && OnLeg(db2.items[ItemKey(h, no)].mask, board, drop))
      && forall s, k: nat :: s in db.seats ==>
           var r, asked := db.seats[s], Asked(trip, nos, board, drop, s, k);
           Shows(db2.seats[s], k, Bit(r.hold, k), Bit(r.sold, k) || asked, Bit(r.blocked, k) && !asked)
  {
    LegMask(board, drop);
    hide Shows, SegmentMask, AllReady, Distinct, SeatEvents, Owned;
    var db2 := SellQuota(db, h, c, trip, nos, board, drop, now).db;
    forall s, k: nat | s in db.seats
      ensures Shows(db2.seats[s], k, Bit(db.seats[s].hold, k), Bit(db.seats[s].sold, k) || Asked(trip, nos, board, drop, s, k),
                    Bit(db.seats[s].blocked, k) && !Asked(trip, nos, board, drop, s, k))
    {
      SoldCell(db, h, c, trip, nos, board, drop, now, s, k);
    }
  }

  lemma SoldCell(db: Db, h: HoldId, c: CounterId, trip: TripId, nos: seq<SeatNo>, board: int, drop: int, now: int,
          s: Seat, k: nat)
    requires SellQuota(db, h, c, trip, nos, board, drop, now).out == Ok && s in db.seats
    ensures var r, r2, asked := db.seats[s], SellQuota(db, h, c, trip, nos, board, drop, now).db.seats, Asked(trip, nos, board, drop, s, k);
      s in r2 && Shows(r2[s], k, Bit(r.hold, k), Bit(r.sold, k) || asked, Bit(r.blocked, k) && !asked)
  {
    LegMask(board, drop);
    hide SegmentMask, AllReady, Distinct, SeatEvents, Owned, NewItems, QuotaRows;
  }

  // ---- remap and seats ---------------------------------------------------------------------------

  /** The row has all (none) of the segments of the mask in its sold mask (in any mask). */
  ghost predicate AllSold(r: SeatRow, m: Mask) { forall k: nat :: Bit(m, k) ==> Bit(r.sold, k) }
  ghost predicate NoneTaken(r: SeatRow, m: Mask) { forall k: nat :: Bit(m, k) ==> Shows(r, k, false, false, false) }

  lemma FreeIsNoneTaken(r: SeatRow, m: Mask)
    ensures Free(r, m) <==> NoneTaken(r, m)
  {
    if NoneTaken(r, m) {
      forall k: nat ensures !(Bit(Or(Or(r.hold, r.sold), r.blocked), k) && Bit(m, k)) {
        if Bit(m, k) { assert Shows(r, k, false, false, false); }
      }
    }
    if Free(r, m) {
      forall k: nat | Bit(m, k) ensures Shows(r, k, false, false, false) { assert !Bit(Or(Or(r.hold, r.sold), r.blocked), k); }
    }
  }

  lemma ReassignOutcome(db: Db, h: HoldId, oldNo: SeatNo, newNo: SeatNo)
    ensures Reassign(db, h, oldNo, newNo).out ==
      if oldNo == newNo then Ok
      else if ItemKey(h, oldNo) !in db.items then ErrHoldNotFound
      else
        var item := db.items[ItemKey(h, oldNo)];
        var from, to := Seat(item.trip, oldNo), Seat(item.trip, newNo);
        if to !in db.seats || !NoneTaken(db.seats[to], item.mask) then ErrSeatUnavailable
        else if from !in db.seats || !AllSold(db.seats[from], item.mask) then ErrNotSold
        else if ItemKey(h, newNo) in db.items then ErrDuplicateKey else Ok
  {
    if ItemKey(h, oldNo) in db.items {
      var item := db.items[ItemKey(h, oldNo)];
      if Seat(item.trip, newNo) in db.seats { FreeIsNoneTaken(db.seats[Seat(item.trip, newNo)], item.mask); }
    }
    hide Free, NoneTaken, Moved;
  }

  /** A move: the item goes to the new seat, and with it exactly its segments from the one sold mask to the other. */
  lemma ReassignRows(db: Db, h: HoldId, oldNo: SeatNo, newNo: SeatNo)
    requires oldNo != newNo && Reassign(db, h, oldNo, newNo).out == Ok
    ensures ItemKey(h, oldNo) in db.items
    ensures var db2, item := Reassign(db, h, oldNo, newNo).db, db.items[ItemKey(h, oldNo)];
      && OthersStay(db, db2, false, true, false)
      && (forall i :: i in db2.items <==> i == ItemKey(h, newNo) || (i in db.items && i != ItemKey(h, oldNo)))
      && (forall i :: i in db2.items ==> db2.items[i] == if i == ItemKey(h, newNo) then item else db.items[i])
  {
    hide Free, Covers;
  }

  lemma ReassignBits(db: Db, h: HoldId, oldNo: SeatNo, newNo: SeatNo, s: Seat, k: nat)
    requires oldNo != newNo && Reassign(db, h, oldNo, newNo).out == Ok && s in db.seats
    ensures ItemKey(h, oldNo) in db.items
    ensures var seats, item, r := Reassign(db, h, oldNo, newNo).db.seats, db.items[ItemKey(h, oldNo)], db.seats[s];
      var moved := s.trip == item.trip && Bit(item.mask, k);
      s in seats && Shows(seats[s], k, Bit(r.hold, k), (Bit(r.sold, k) || (moved && s.no == newNo)) && !(moved && s.no == oldNo), Bit(r.blocked, k))
  {
    hide Free, Covers;
  }

  /** Withdrawing blocks exactly the segments of the trip that are not sold. */
  lemma WithdrawRows(db: Db, trip: TripId, no: SeatNo)
    ensures var r, s := WithdrawSeat(db, trip, no), Seat(trip, no);
      && r.out == (if trip in db.trips then Ok else ErrNoRows) && OthersStay(db, r.db, false, false, false)
      && (trip !in db.trips ==> r.db == db)
      && (forall t :: t in db.seats && t != s ==> r.db.seats[t] == db.seats[t])
      && forall k: nat :: trip in db.trips && s in db.seats ==>
           Shows(r.db.seats[s], k, Bit(db.seats[s].hold, k), Bit(db.seats[s].sold, k),
                 Bit(db.seats[s].blocked, k) || (k < db.trips[trip] && !Bit(db.seats[s].sold, k)))
  {
    if trip in db.trips { AllBits(db.trips[trip]); }
  }

  /** The row of a seat that is first described by `specs[i]`. */
  ghost predicate Born(r: SeatRow, spec: SeatSpec, segments: nat) {
    && (forall k: nat :: !Bit(r.hold, k) && !Bit(r.sold, k))
    && forall k: nat :: Bit(r.blocked, k) <==> !spec.forSale && k < segments
  }

  predicate FirstOf(specs: seq<SeatSpec>, i: nat, no: SeatNo) {
    i < |specs| && specs[i].no == no && forall j :: 0 <= j < i ==> specs[j].no != no
  }

  lemma NewRowIsBorn(spec: SeatSpec, segments: nat)
    ensures Born(NewRow(spec, segments), spec, segments)
  {
    AllBits(segments);
    ZeroHasNoBits();
  }

  lemma NextSeat(seats: map<Seat, SeatRow>, trip: TripId, segments: nat, specs: seq<SeatSpec>)
    requires specs != []
    ensures var n := |specs| - 1; var before, s := WithSeats(seats, trip, segments, specs[..n]), Seat(trip, specs[n].no);
      WithSeats(seats, trip, segments, specs) == if s in before then before else before[s := NewRow(specs[n], segments)]
  {
    hide NewRow;
  }

  lemma NotYet(seats: map<Seat, SeatRow>, trip: TripId, segments: nat, specs: seq<SeatSpec>, i: nat, no: SeatNo)
    requires FirstOf(specs, i, no) && i == |specs| - 1 && Seat(trip, no) !in seats
    ensures Seat(trip, no) !in WithSeats(seats, trip, segments, specs[..i])
  {
    NewSeats(seats, trip, segments, specs[..i]);
    hide WithSeats;
  }

  lemma {:induction false} BornRows(seats: map<Seat, SeatRow>, trip: TripId, segments: nat, specs: seq<SeatSpec>,
          i: nat, no: SeatNo)
    requires FirstOf(specs, i, no) && Seat(trip, no) !in seats
    ensures var r := WithSeats(seats, trip, segments, specs); Seat(trip, no) in r && Born(r[Seat(trip, no)], specs[i], segments)
  {
    hide WithSeats, NewRow, Born;
    var n := |specs| - 1;
    NextSeat(seats, trip, segments, specs);
    if i < n {
      BornRows(seats, trip, segments, specs[..n], i, no);
    } else {
      NotYet(seats, trip, segments, specs, i, no);
      NewRowIsBorn(specs[n], segments);
    }
  }

  /** New seats are on sale for the whole trip, and crew seats and the like for none of it; a seat that exists keeps
      its row. */
  lemma AddRows(db: Db, trip: TripId, specs: seq<SeatSpec>, i: nat, no: SeatNo)
    requires FirstOf(specs, i, no)
    ensures var r, s := AddSeats(db, trip, specs), Seat(trip, no);
      && r.out == (if trip in db.trips then Ok else ErrNoRows) && (r.out != Ok ==> r.db == db)
      && r.db == db.(seats := r.db.seats)
      && (trip in db.trips ==> s in r.db.seats && if s in db.seats then r.db.seats[s] == db.seats[s] else Born(r.db.seats[s], specs[i], db.trips[trip]))
      && (forall t :: t in r.db.seats && t !in db.seats ==> t.trip == trip && exists j :: 0 <= j < |specs| && specs[j].no == t.no)
      && (forall t :: t in db.seats ==> t in r.db.seats && r.db.seats[t] == db.seats[t])
  {
    if trip in db.trips {
      NewSeats(db.seats, trip, db.trips[trip], specs);
      if Seat(trip, no) !in db.seats { BornRows(db.seats, trip, db.trips[trip], specs, i, no); }
    }
  }

  lemma {:induction false} FreshIff(seats: map<Seat, SeatRow>, trip: TripId, specs: seq<SeatSpec>)
    ensures FreshSeats(seats, trip, specs) <==>
      && (forall i :: 0 <= i < |specs| ==> Seat(trip, specs[i].no) !in seats)
      && (forall i, j :: 0 <= i < j < |specs| ==> specs[i].no != specs[j].no)
  {
    if specs != [] { FreshIff(seats, trip, specs[..|specs| - 1]); }
  }

  lemma OpenRows(db: Db, trip: TripId, segments: int, specs: seq<SeatSpec>)
    ensures var r := OpenTrip(db, trip, segments, specs);
      var unused := (forall i :: 0 <= i < |specs| ==> Seat(trip, specs[i].no) !in db.seats)
                   && forall i, j :: 0 <= i < j < |specs| ==> specs[i].no != specs[j].no;
      && r.out == (if !(1 <= segments <= 62) then ErrBadSegments else if specs == [] then ErrNoSeats
                   else if trip in db.trips || unused then Ok else ErrDuplicateKey)
      && (r.out != Ok || trip in db.trips ==> r.db == db)
      && (r.out == Ok && trip !in db.trips ==>
            && r.db == db.(trips := db.trips[trip := segments], seats := r.db.seats)
            && (forall s :: s in r.db.seats <==> s in db.seats || (s.trip == trip && exists i :: 0 <= i < |specs| && specs[i].no == s.no))
            && (forall s :: s in db.seats ==> r.db.seats[s] == db.seats[s])
            && forall i :: 0 <= i < |specs| ==> Born(r.db.seats[Seat(trip, specs[i].no)], specs[i], segments))
  {
    FreshIff(db.seats, trip, specs);
    var r := OpenTrip(db, trip, segments, specs);
    if r.out == Ok && trip !in db.trips {
      NewSeats(db.seats, trip, segments, specs);
      forall i | 0 <= i < |specs| ensures Born(r.db.seats[Seat(trip, specs[i].no)], specs[i], segments) {
        BornRows(db.seats, trip, segments, specs, i, specs[i].no);
      }
    }
    hide FreshSeats, WithSeats, Born;
  }
}
