/** What the ownership refinement buys: the promises the inventory service makes to its callers. */
module Laws {
  import opened Wrappers
  import opened Bits
  import opened Inventory
  import opened Ownership

  // ---- no double booking, in terms of the tables alone ------------------------------------

  function SeatOf(db: Db, i: ItemKey): Seat
    requires i in db.items
  {
    Seat(db.items[i].trip, i.no)
  }

  predicate Live(db: Db, i: ItemKey) {
    i in db.items && i.hold in db.holds && db.holds[i.hold].status in {HELD, CONFIRMED}
  }

  /** Two live items on one seat, or an item and a quota row, or two quota rows, share no segment. */
  ghost predicate NoOverlap(db: Db) {
    && (forall i, j :: Live(db, i) && Live(db, j) && i != j && SeatOf(db, i) == SeatOf(db, j) ==>
          Disjoint(db.items[i].mask, db.items[j].mask))
    && (forall i, q :: Live(db, i) && InQuota(db, q) && SeatOf(db, i) == Seat(q.trip, q.no) ==>
          Disjoint(db.items[i].mask, q.mask))
    && (forall p, q :: InQuota(db, p) && InQuota(db, q) && p != q && p.trip == q.trip && p.no == q.no ==>
          Disjoint(p.mask, q.mask))
  }

  /** The hold (sold) mask of each seat is exactly the union of its HELD (CONFIRMED) items. */
  ghost predicate MasksAreUnions(db: Db) {
    forall s, k: nat :: s in db.seats ==>
      && (Bit(db.seats[s].hold, k) <==> exists h :: LiveItem(db, s, k, h, HELD))
      && (Bit(db.seats[s].sold, k) <==> exists h :: LiveItem(db, s, k, h, CONFIRMED))
  }

  ghost predicate QuotasAreBlocked(db: Db) {
    forall q :: InQuota(db, q) ==>
      && Seat(q.trip, q.no) in db.seats && Covers(db.seats[Seat(q.trip, q.no)].blocked, q.mask)
      && Disjoint(db.seats[Seat(q.trip, q.no)].hold, q.mask) && Disjoint(db.seats[Seat(q.trip, q.no)].sold, q.mask)
  }

  lemma ItemOwns(db: Db, own: Owners, i: ItemKey, k: nat)
    requires Refines(db, own) && Live(db, i) && Bit(db.items[i].mask, k)
    ensures own(SeatOf(db, i), k) == if db.holds[i.hold].status == HELD then Held(i.hold) else Sold(i.hold)
  {
    var o := if db.holds[i.hold].status == HELD then Held(i.hold) else Sold(i.hold);
    assert Claim(db, own, SeatOf(db, i), k, o);
  }

  lemma QuotaOwns(db: Db, own: Owners, q: QuotaKey, k: nat)
    requires Refines(db, own) && InQuota(db, q) && Bit(q.mask, k)
    ensures own(Seat(q.trip, q.no), k) == Reserved(q)
  {
    assert Claim(db, own, Seat(q.trip, q.no), k, Reserved(q));
  }

  lemma OneOwnerPerSegment(db: Db, own: Owners)
    requires Refines(db, own)
    ensures NoOverlap(db)
  {
    forall i, j, k: nat | Live(db, i) && Live(db, j) && i != j && SeatOf(db, i) == SeatOf(db, j)
      ensures !(Bit(db.items[i].mask, k) && Bit(db.items[j].mask, k))
    {
      if Bit(db.items[i].mask, k) && Bit(db.items[j].mask, k) { ItemOwns(db, own, i, k); ItemOwns(db, own, j, k); }
    }
    forall i, q, k: nat | Live(db, i) && InQuota(db, q) && SeatOf(db, i) == Seat(q.trip, q.no)
      ensures !(Bit(db.items[i].mask, k) && Bit(q.mask, k))
    {
      if Bit(db.items[i].mask, k) && Bit(q.mask, k) { ItemOwns(db, own, i, k); QuotaOwns(db, own, q, k); }
    }
    forall p, q, k: nat | InQuota(db, p) && InQuota(db, q) && p != q && p.trip == q.trip && p.no == q.no
      ensures !(Bit(p.mask, k) && Bit(q.mask, k))
    {
      if Bit(p.mask, k) && Bit(q.mask, k) { QuotaOwns(db, own, p, k); QuotaOwns(db, own, q, k); }
    }
  }

  lemma MasksMatchRows(db: Db, own: Owners)
    requires Refines(db, own)
    ensures MasksAreUnions(db) && QuotasAreBlocked(db)
    ensures forall s :: s in db.seats ==> Disjoint(db.seats[s].hold, db.seats[s].sold)
  {
    forall s, k: nat | s in db.seats
      ensures Bit(db.seats[s].hold, k) <==> exists h :: LiveItem(db, s, k, h, HELD)
      ensures Bit(db.seats[s].sold, k) <==> exists h :: LiveItem(db, s, k, h, CONFIRMED)
      ensures !(Bit(db.seats[s].hold, k) && Bit(db.seats[s].sold, k))
    {
      var o := own(s, k);
      assert Shown(db, own, s, k) && Claim(db, own, s, k, o);
      if o.Held? { assert LiveItem(db, s, k, o.h, HELD); }
      if o.Sold? { assert LiveItem(db, s, k, o.h, CONFIRMED); }
      forall h ensures LiveItem(db, s, k, h, HELD) ==> o == Held(h) { assert Claim(db, own, s, k, Held(h)); }
      forall h ensures LiveItem(db, s, k, h, CONFIRMED) ==> o == Sold(h) { assert Claim(db, own, s, k, Sold(h)); }
    }
    forall q, k: nat | InQuota(db, q) && Bit(q.mask, k)
      ensures var r := db.seats[Seat(q.trip, q.no)]; Bit(r.blocked, k) && !Bit(r.hold, k) && !Bit(r.sold, k)
    {
      QuotaOwns(db, own, q, k);
      assert Shown(db, own, Seat(q.trip, q.no), k);
    }
  }

  /** After any run, no segment of any seat has two owners and the masks are the unions of the rows. */
  lemma NoDoubleBooking(ops: seq<Op>)
    requires GuardedRun(ops)
    ensures NoOverlap(Run(ops).db) && MasksAreUnions(Run(ops).db) && QuotasAreBlocked(Run(ops).db)
  {
    RunRefines(ops);
    OneOwnerPerSegment(Run(ops).db, OwnersOf(ops));
    MasksMatchRows(Run(ops).db, OwnersOf(ops));
  }

  // ---- availability --------------------------------------------------------------------

  /** AcquireHold succeeds exactly on non-empty lists of distinct free seats; else nothing changes. */
  lemma AcquireIsExact(db: Db, h: HoldId, trip: TripId, seats: seq<SeatNo>, board: int, drop: int, expires: int)
    requires h !in db.holds
    ensures var r := AcquireHold(db, h, trip, seats, board, drop, expires);
      && (r.out == Ok <==>
            && 0 <= board < drop <= MAX_SEGMENTS && seats != [] && Distinct(seats)
            && forall no :: no in seats ==> no in FreeFor(db, trip, SegmentMask(board, drop).value))
      && (r.out != Ok ==> r.db == db && r.log == [])
  {
    hide Free, Acquired, SeatEvents;
    JourneyBits(board, drop);
    if SegmentMask(board, drop).Some? {
      var mask := SegmentMask(board, drop).value;
      var ms := Each(seats, mask);
      forall no ensures no in FreeFor(db, trip, mask) <==> Seat(trip, no) in db.seats && Free(db.seats[Seat(trip, no)], mask) {
        InFreeFor(db, trip, mask, no);
      }
      hide FreeFor;
      assert AllReady(db.seats, trip, ms, TakeHold) <==> forall no :: no in seats ==> no in FreeFor(db, trip, mask) by {
        assert forall no :: no in seats <==> no in ms;
      }
    }
  }

  lemma InFreeFor(db: Db, trip: TripId, m: Mask, no: SeatNo)
    ensures no in FreeFor(db, trip, m) <==> Seat(trip, no) in db.seats && Free(db.seats[Seat(trip, no)], m)
  {
    if Seat(trip, no) in db.seats && Free(db.seats[Seat(trip, no)], m) { assert Seat(trip, no).no in FreeFor(db, trip, m); }
  }

  // ---- branches that cannot be reached -----------------------------------------------------

  /** ErrHoldLost: a HELD hold always still owns its segments. */
  lemma HoldIsNeverLost(db: Db, own: Owners, h: HoldId)
    requires Refines(db, own)
    ensures ConfirmHold(db, h).out != ErrHoldLost
    ensures h in db.holds && db.holds[h].status == HELD ==> ConfirmHold(db, h).db.holds[h].status == CONFIRMED
  {
    if h in db.holds && db.holds[h].status == HELD {
      var trip, ms := db.holds[h].trip, ItemsOf(db, h);
      forall no | no in ms ensures Seat(trip, no) in db.seats && Ready(HoldToSold, db.seats[Seat(trip, no)], ms[no]) {
        forall k: nat | Bit(ms[no], k) ensures Bit(db.seats[Seat(trip, no)].hold, k) {
          ItemOwns(db, own, ItemKey(h, no), k);
          assert Shown(db, own, Seat(trip, no), k);
        }
      }
    }
  }

  /** The second ErrNotInQuota of SellQuota: an allocated quota seat is always still blocked. */
  lemma QuotaIsAlwaysBlocked(db: Db, own: Owners, counter: CounterId, trip: TripId, ms: map<SeatNo, Mask>)
    requires Refines(db, own) && Owned(db, counter, trip, ms)
    ensures AllReady(db.seats, trip, ms, BlockToSold)
  {
    MasksMatchRows(db, own);
    forall no | no in ms ensures Seat(trip, no) in db.seats && Ready(BlockToSold, db.seats[Seat(trip, no)], ms[no]) {
      assert InQuota(db, QuotaKey(counter, trip, no, ms[no]));
    }
  }

  // ---- the status of a hold ----------------------------------------------------------------

  predicate Confirmed(db: Db, h: HoldId) { h in db.holds && db.holds[h].status == CONFIRMED }
  predicate GivenBack(db: Db, h: HoldId) { h in db.holds && Settled(db.holds[h].status) }

  lemma TakingKeepsHolds(db: Db, op: Op, h: HoldId)
    requires h in db.holds && (op.OpAcquire? || op.OpAllocate? || op.OpSell?)
    ensures h in Step(db, op).db.holds && Step(db, op).db.holds[h] == db.holds[h]
  {
    hide AllReady, Touch, SeatEvents, Each, SegmentMask, Owned, Distinct;
  }

  lemma MovingKeepsHolds(db: Db, op: Op, h: HoldId)
    requires h in db.holds && (op.OpOpen? || op.OpAdd? || op.OpReturn? || op.OpReassign? || op.OpWithdraw?)
    ensures Step(db, op).db.holds == db.holds
  {
  }

  /** The status that a call gives to a HELD hold, if it settles it: its own confirm or release, or a
      sweep that picked it. */
  function Settlement(db: Db, op: Op, h: HoldId): (r: Option<Status>)
    ensures r.Some? ==> r.value != HELD
  {
    match op
    case OpConfirm(g) => if g == h then Some(CONFIRMED) else None
    case OpRelease(g, expired) => if g == h then Some(if expired then EXPIRED else RELEASED) else None
    case OpSweep(dues, now) => if Sweepable(db, dues, now) && h in dues then Some(EXPIRED) else None
    case _ => None
  }

  lemma SettlingStatus(db: Db, op: Op, h: HoldId)
    requires h in db.holds && (op.OpConfirm? || op.OpRelease? || op.OpUnsell?)
    ensures h in Step(db, op).db.holds
    ensures db.holds[h].status != HELD && (op == OpUnsell(h) ==> db.holds[h].status != CONFIRMED) ==> Step(db, op).db.holds[h] == db.holds[h]
    ensures db.holds[h].status == HELD && Step(db, op).out != ErrHoldLost ==>
              Step(db, op).db.holds[h].status == if Settlement(db, op, h).Some? then Settlement(db, op, h).value else HELD
    ensures op == OpUnsell(h) && db.holds[h].status == CONFIRMED ==> GivenBack(Step(db, op).db, h)
  {
    hide Touch, AllReady, SeatEvents, ItemsOf;
  }

  lemma SweepStatus(db: Db, op: Op, h: HoldId)
    requires h in db.holds && op.OpSweep?
    ensures h in Step(db, op).db.holds
    ensures db.holds[h].status != HELD ==> Step(db, op).db.holds[h] == db.holds[h]
    ensures db.holds[h].status == HELD ==>
      Step(db, op).db.holds[h].status == if Settlement(db, op, h).Some? then Settlement(db, op, h).value else HELD
  {
    if Sweepable(db, op.dues, op.now) {
      assert h in op.dues ==> Due(db, h, op.now);
      SweepHolds(db, op.dues, h);
    }
  }

  /** A CONFIRMED hold stays so until ReleaseConfirmed; a released or expired one is settled for good. */
  lemma StatusIsFinal(db: Db, op: Op, h: HoldId)
    requires h in db.holds
    ensures h in Step(db, op).db.holds
    ensures db.holds[h].status != HELD && (op == OpUnsell(h) ==> db.holds[h].status != CONFIRMED) ==> Step(db, op).db.holds[h] == db.holds[h]
    ensures GivenBack(db, h) ==> GivenBack(Step(db, op).db, h)
  {
    hide Step;
    if op.OpSweep? { SweepStatus(db, op, h); }
    else if op.OpConfirm? || op.OpRelease? || op.OpUnsell? { SettlingStatus(db, op, h); }
    else if op.OpAcquire? || op.OpAllocate? || op.OpSell? { TakingKeepsHolds(db, op, h); }
    else { MovingKeepsHolds(db, op, h); }
  }

  // ---- the confirm/expiry race ------------------------------------------------------------

  function RunFrom(db: Db, ops: seq<Op>): Db
    decreases |ops|
  {
    if ops == [] then db else RunFrom(Step(db, ops[0]).db, ops[1..])
  }

  predicate GuardedFrom(db: Db, ops: seq<Op>)
    decreases |ops|
  {
    ops == [] || (Guarded(db, ops[0]) && GuardedFrom(Step(db, ops[0]).db, ops[1..]))
  }

  /** What the first call that settles the hold makes of it. */
  function Verdict(db: Db, ops: seq<Op>, h: HoldId): Status
    decreases |ops|
  {
    if ops == [] then HELD
    else if Settlement(db, ops[0], h).Some? then Settlement(db, ops[0], h).value
    else Verdict(Step(db, ops[0]).db, ops[1..], h)
  }

  lemma HeldStep(db: Db, own: Owners, op: Op, h: HoldId)
    requires Refines(db, own) && h in db.holds && db.holds[h].status == HELD
    ensures h in Step(db, op).db.holds
    ensures Step(db, op).db.holds[h].status == if Settlement(db, op, h).Some? then Settlement(db, op, h).value else HELD
  {
    hide Step, Refines;
    if op.OpSweep? { SweepStatus(db, op, h); }
    else if op.OpConfirm? || op.OpRelease? || op.OpUnsell? { ConfirmIsNotLost(db, own, op); SettlingStatus(db, op, h); }
    else if op.OpAcquire? || op.OpAllocate? || op.OpSell? { TakingKeepsHolds(db, op, h); }
    else { MovingKeepsHolds(db, op, h); }
  }

  lemma ConfirmIsNotLost(db: Db, own: Owners, op: Op)
    requires Refines(db, own) && (op.OpConfirm? || op.OpRelease? || op.OpUnsell?)
    ensures Step(db, op).out != ErrHoldLost
  {
    if op.OpConfirm? { HoldIsNeverLost(db, own, op.h); }
  }

  /** Only Reassign changes the items of a hold that exists. */
  ghost predicate SameItems(db: Db, db2: Db, h: HoldId) {
    forall no :: (ItemKey(h, no) in db2.items <==> ItemKey(h, no) in db.items)
      && (ItemKey(h, no) in db.items ==> db2.items[ItemKey(h, no)] == db.items[ItemKey(h, no)])
  }

  lemma {:induction false} SweepKeepsItems(db: Db, dues: seq<HoldId>)
    requires forall d :: d in dues ==> d in db.holds
    ensures Sweep(db, dues).db.items == db.items
  {
    if dues != [] { SweepKeepsItems(db, dues[..|dues| - 1]); }
  }

  lemma SettlingKeepsItems(db: Db, op: Op)
    requires op.OpConfirm? || op.OpRelease? || op.OpUnsell?
    ensures Step(db, op).db.items == db.items
  {
    hide AllReady, Touch, ItemsOf, SeatEvents;
  }

  lemma TakingKeepsItems(db: Db, op: Op, h: HoldId)
    requires h in db.holds && (op.OpAcquire? || op.OpAllocate? || op.OpSell?)
    ensures SameItems(db, Step(db, op).db, h)
  {
    hide AllReady, Touch, SeatEvents, QuotaRows, Distinct, Each, SegmentMask, Owned;
  }

  lemma MovingKeepsItems(db: Db, op: Op, h: HoldId)
    requires op.OpOpen? || op.OpAdd? || op.OpReturn? || op.OpWithdraw? || (op.OpReassign? && op.h != h)
    ensures SameItems(db, Step(db, op).db, h)
  {
    hide Touch, Free, Covers, FreshSeats, WithSeats, Returnable, QuotaRows, Apply;
  }

  lemma ItemsStay(db: Db, op: Op, h: HoldId)
    requires h in db.holds && !(op.OpReassign? && op.h == h)
    ensures SameItems(db, Step(db, op).db, h)
  {
    if op.OpSweep? {
      if Sweepable(db, op.dues, op.now) { SweepKeepsItems(db, op.dues); }
    }
    else if op.OpConfirm? || op.OpRelease? || op.OpUnsell? { SettlingKeepsItems(db, op); hide Step; }
    else if op.OpAcquire? || op.OpAllocate? || op.OpSell? { TakingKeepsItems(db, op, h); hide Step, SameItems; }
    else { MovingKeepsItems(db, op, h); hide Step, SameItems; }
  }

  /** Segment for segment: what the hold owned is now sold to it, or free of it. */
  ghost predicate AllOrNothing(own: Owners, own2: Owners, h: HoldId, status: Status, s: Seat, k: nat) {
    && (status == HELD ==> (own2(s, k) == Held(h) <==> own(s, k) == Held(h)))
    && (status == CONFIRMED ==> (own2(s, k) == Sold(h) <==> own(s, k) == Held(h)))
    && (Settled(status) ==> own2(s, k) != Held(h) && own2(s, k) != Sold(h))
  }

  lemma RowsDecide(db: Db, own: Owners, db2: Db, own2: Owners, h: HoldId, s: Seat, k: nat)
    requires Claim(db, own, s, k, Held(h)) && Claim(db2, own2, s, k, Held(h)) && Claim(db2, own2, s, k, Sold(h))
    requires h in db.holds && db.holds[h].status == HELD && h in db2.holds && SameItems(db, db2, h)
    ensures AllOrNothing(own, own2, h, db2.holds[h].status, s, k)
  {
    assert ItemKey(h, s.no) in db2.items <==> ItemKey(h, s.no) in db.items;
  }

  /** However confirms, releases and sweeps race for a hold, with any other traffic in between: its
      final status is that of the first call that could settle it, and every segment it owned is then
      sold to it, or none is. */
  lemma RaceHasOneWinner(db: Db, own: Owners, h: HoldId, ops: seq<Op>) returns (own2: Owners)
    requires Refines(db, own) && h in db.holds && db.holds[h].status == HELD && GuardedFrom(db, ops)
    requires forall op :: op in ops ==> !((op.OpUnsell? || op.OpReassign?) && op.h == h)
    ensures var last := RunFrom(db, ops); h in last.holds && last.holds[h].status == Verdict(db, ops, h) && Refines(last, own2)
    ensures forall s, k: nat :: AllOrNothing(own, own2, h, Verdict(db, ops, h), s, k)
  {
    hide Refines, AllOrNothing, SameItems, RunFrom, Verdict;
    own2 := RunFromRefines(db, own, ops);
    RaceStatus(db, own, h, ops);
    RaceItems(db, h, ops);
    forall s, k: nat ensures AllOrNothing(own, own2, h, Verdict(db, ops, h), s, k) {
      ClaimsOf(db, own, h, s, k);
      ClaimsOf(RunFrom(db, ops), own2, h, s, k);
      RowsDecide(db, own, RunFrom(db, ops), own2, h, s, k);
    }
  }

  lemma ClaimsOf(db: Db, own: Owners, h: HoldId, s: Seat, k: nat)
    requires Refines(db, own)
    ensures Claim(db, own, s, k, Held(h)) && Claim(db, own, s, k, Sold(h))
  {
  }

  lemma {:induction false} RunFromRefines(db: Db, own: Owners, ops: seq<Op>) returns (own2: Owners)
    requires Refines(db, own) && GuardedFrom(db, ops)
    ensures Refines(RunFrom(db, ops), own2)
    decreases |ops|
  {
    hide Refines, Step, After;
    own2 := own;
    if ops != [] {
      StepRefines(db, own, ops[0]);
      own2 := RunFromRefines(Step(db, ops[0]).db, if Step(db, ops[0]).out == Ok then After(own, db, ops[0]) else own, ops[1..]);
    }
  }

  lemma {:induction false} FinalStays(db: Db, h: HoldId, ops: seq<Op>)
    requires h in db.holds && db.holds[h].status != HELD && forall op :: op in ops ==> !(op.OpUnsell? && op.h == h)
    ensures h in RunFrom(db, ops).holds && RunFrom(db, ops).holds[h] == db.holds[h]
    decreases |ops|
  {
    hide Step;
    if ops != [] {
      StatusIsFinal(db, ops[0], h);
      FinalStays(Step(db, ops[0]).db, h, ops[1..]);
    }
  }

  lemma {:induction false} RaceStatus(db: Db, own: Owners, h: HoldId, ops: seq<Op>)
    requires Refines(db, own) && h in db.holds && db.holds[h].status == HELD && GuardedFrom(db, ops)
    requires forall op :: op in ops ==> !(op.OpUnsell? && op.h == h)
    ensures h in RunFrom(db, ops).holds && RunFrom(db, ops).holds[h].status == Verdict(db, ops, h)
    decreases |ops|
  {
    hide Refines, Step, After, Settlement;
    if ops != [] {
      HeldStep(db, own, ops[0], h);
      if Settlement(db, ops[0], h).Some? {
        FinalStays(Step(db, ops[0]).db, h, ops[1..]);
      } else {
        StepRefines(db, own, ops[0]);
        RaceStatus(Step(db, ops[0]).db, if Step(db, ops[0]).out == Ok then After(own, db, ops[0]) else own, h, ops[1..]);
      }
    }
  }

  lemma {:induction false} RaceItems(db: Db, h: HoldId, ops: seq<Op>)
    requires h in db.holds && forall op :: op in ops ==> !(op.OpReassign? && op.h == h)
    ensures SameItems(db, RunFrom(db, ops), h)
    decreases |ops|
  {
    hide Step;
    if ops != [] {
      ItemsStay(db, ops[0], h);
      StatusIsFinal(db, ops[0], h);
      RaceItems(Step(db, ops[0]).db, h, ops[1..]);
    }
  }

  // ---- the calls that lose -----------------------------------------------------------------

  predicate Settler(op: Op, h: HoldId) {
    op == OpConfirm(h) || op == OpRelease(h, true) || op == OpRelease(h, false) || (op.OpSweep? && op.dues == [h])
  }

  lemma {:induction false} SettledStays(db: Db, h: HoldId, ops: seq<Op>)
    requires h in db.holds && db.holds[h].status != HELD && forall op :: op in ops ==> Settler(op, h)
    ensures RunFrom(db, ops) == db
    decreases |ops|
  {
    if ops != [] {
      LoserChangesNothing(db, h, ops[0]);
      SettledStays(db, h, ops[1..]);
    }
  }

  lemma LoserChangesNothing(db: Db, h: HoldId, op: Op)
    requires h in db.holds && Settler(op, h) && db.holds[h].status != HELD
    ensures Step(db, op).db == db
  {
    if op.OpSweep? { assert h in op.dues; }
  }

  /** The call that wins moves every segment of the hold, and no other segment. */
  lemma WinnerDecides(db: Db, own: Owners, h: HoldId, op: Op)
    requires Refines(db, own) && h in db.holds && db.holds[h].status == HELD && Settler(op, h) && Settlement(db, op, h).Some?
    ensures h in Step(db, op).db.holds && Step(db, op).db.holds[h].status == Settlement(db, op, h).value
    ensures Refines(Step(db, op).db, Rename(own, Held(h), if op.OpConfirm? then Sold(h) else Nobody))
  {
    HeldStep(db, own, op, h);
    HoldIsNeverLost(db, own, h);
    assert [h][..0] == [] && (op.OpSweep? ==> After(own, db, op) == Rename(Freed(own, []), Held(h), Nobody));
    StepRefines(db, own, op);
    hide Refines;
  }

  // ---- seats that are taken off sale ---------------------------------------------------------

  /** WithdrawSeat looks only at the sold mask: a held segment is blocked too, and its hold can still be
      confirmed, which leaves the segment blocked and sold. */
  lemma WithdrawnStillSells(db: Db, own: Owners, h: HoldId, no: SeatNo, k: nat)
    requires Refines(db, own) && h in db.holds && db.holds[h].status == HELD
    requires ItemKey(h, no) in db.items && Bit(db.items[ItemKey(h, no)].mask, k) && k < db.trips[db.holds[h].trip]
    ensures var s, db1 := Seat(db.holds[h].trip, no), WithdrawSeat(db, db.holds[h].trip, no).db; var r := ConfirmHold(db1, h);
      && s in db1.seats && Bit(db1.seats[s].hold, k) && Bit(db1.seats[s].blocked, k)
      && r.out == Ok && s in r.db.seats && Bit(r.db.seats[s].sold, k) && Bit(r.db.seats[s].blocked, k)
  {
    var s, db1 := Seat(db.holds[h].trip, no), WithdrawSeat(db, db.holds[h].trip, no).db;
    ClaimsOf(db, own, h, s, k);
    assert Shown(db, own, s, k);
    AllBits(db.trips[s.trip]);
    RefinesWithdraw(db, own, s.trip, no);
    WithdrawnIsConfirmed(db1, own, h, no, k);
  }

  lemma WithdrawnIsConfirmed(db: Db, own: Owners, h: HoldId, no: SeatNo, k: nat)
    requires Refines(db, own) && h in db.holds && db.holds[h].status == HELD
    requires ItemKey(h, no) in db.items && Bit(db.items[ItemKey(h, no)].mask, k)
    ensures var s, r := Seat(db.holds[h].trip, no), ConfirmHold(db, h);
      r.out == Ok && s in db.seats && s in r.db.seats && Bit(r.db.seats[s].sold, k) && r.db.seats[s].blocked == db.seats[s].blocked
  {
    HoldIsNeverLost(db, own, h);
  }

  // ---- Reassign and settled holds ----------------------------------------------------------

  lemma StrandedSaleHasNoOwner(db: Db, own: Owners, h: HoldId, oldNo: SeatNo, newNo: SeatNo, own2: Owners)
    requires Refines(db, own) && Strands(db, h, oldNo, newNo)
    ensures !Refines(Moved(db, h, oldNo, newNo), own2)
  {
    var db', item := Moved(db, h, oldNo, newNo), db.items[ItemKey(h, oldNo)];
    var to, k := Seat(item.trip, newNo), LowBit(item.mask);
    assert Shown(db, own, to, k);
    FreeIsNobody(db, own, to, k, item.mask);
    if Refines(db', own2) {
      assert Shown(db', own2, to, k) && own2(to, k).Sold?;
      var g := own2(to, k).h;
      assert Claim(db', own2, to, k, Sold(g)) && Entitled(db', to, k, Sold(g));
      assert Entitled(db, to, k, Sold(g)) && Claim(db, own, to, k, Sold(g));
    }
  }

  lemma UnstrandedMoveIsOwned(db: Db, own: Owners, h: HoldId, oldNo: SeatNo, newNo: SeatNo) returns (own2: Owners)
    requires Refines(db, own) && !Strands(db, h, oldNo, newNo)
    ensures Refines(Reassign(db, h, oldNo, newNo).db, own2)
  {
    var op := OpReassign(h, oldNo, newNo);
    StepRefines(db, own, op);
    own2 := if Step(db, op).out == Ok then After(own, db, op) else own;
  }

  /** Reassign leaves every sold segment with an owner exactly when it does not strand a sale. */
  lemma ReassignKeepsOwnershipIff(db: Db, own: Owners, h: HoldId, oldNo: SeatNo, newNo: SeatNo)
    requires Refines(db, own)
    ensures (exists own2: Owners :: Refines(Reassign(db, h, oldNo, newNo).db, own2)) <==> !Strands(db, h, oldNo, newNo)
  {
    if Strands(db, h, oldNo, newNo) {
      forall own2: Owners ensures !Refines(Reassign(db, h, oldNo, newNo).db, own2) {
        StrandedSaleHasNoOwner(db, own, h, oldNo, newNo, own2);
      }
    } else {
      var own2 := UnstrandedMoveIsOwned(db, own, h, oldNo, newNo);
    }
  }
}
