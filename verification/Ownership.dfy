/** No double booking: the mask tables refine a map from (seat, segment) to one owner. */
module Ownership {
  import opened Wrappers
  import opened Bits
  import opened Inventory

  datatype Owner = Nobody | Held(h: HoldId) | Sold(h: HoldId) | Reserved(q: QuotaKey)

  /** The abstract state: who owns each segment of each seat. */
  type Owners = (Seat, nat) -> Owner

  function NobodyOwns(): Owners { (s: Seat, k: nat) => Nobody }

  // ---- the abstract service: no mask, no status column, no guard on bits ------------

  /** Gives the segments board..drop-1 of the listed seats to `to`. */
  function Give(own: Owners, trip: TripId, seats: seq<SeatNo>, board: int, drop: int, to: SeatNo -> Owner): Owners {
    (s: Seat, k: nat) => if s.trip == trip && s.no in seats && board <= k < drop then to(s.no) else own(s, k)
  }

  function Rename(own: Owners, from: Owner, to: Owner): Owners {
    (s: Seat, k: nat) => if own(s, k) == from then to else own(s, k)
  }

  function Freed(own: Owners, dues: seq<HoldId>): Owners {
    if dues == [] then own else Rename(Freed(own, dues[..|dues| - 1]), Held(dues[|dues| - 1]), Nobody)
  }

  function OnSeat(own: Owners, h: HoldId, s: Seat, t: Seat): Owners {
    (u: Seat, k: nat) =>
      if u == t && own(s, k) == Sold(h) then Sold(h)
      else if u == s && own(s, k) == Sold(h) then Nobody
      else own(u, k)
  }

  function QuotaOf(counter: CounterId, trip: TripId, board: int, drop: int): SeatNo -> Owner {
    (no: SeatNo) => Reserved(QuotaKey(counter, trip, no, SegmentMask(board, drop).GetOr(0)))
  }

  /** What a successful operation does to the owners. */
  function After(own: Owners, db: Db, op: Op): Owners {
    match op
    case OpAcquire(h, trip, seats, board, drop, _) => Give(own, trip, seats, board, drop, _ => Held(h))
    case OpConfirm(h) => Rename(own, Held(h), Sold(h))
    case OpRelease(h, _) => Rename(own, Held(h), Nobody)
    case OpUnsell(h) => Rename(own, Sold(h), Nobody)
    case OpSweep(dues, _) => Freed(own, dues)
    case OpAllocate(counter, trip, seats, board, drop) => Give(own, trip, seats, board, drop, QuotaOf(counter, trip, board, drop))
    case OpReturn(counter, trip, seats, mask) =>
      (s: Seat, k: nat) =>
        if own(s, k) == Reserved(QuotaKey(counter, trip, s.no, mask)) && s.no in seats then Nobody else own(s, k)
    case OpSell(h, _, trip, seats, board, drop, _) => Give(own, trip, seats, board, drop, _ => Sold(h))
    case OpReassign(h, oldNo, newNo) =>
      if oldNo == newNo || h !in db.holds then own
      else OnSeat(own, h, Seat(db.holds[h].trip, oldNo), Seat(db.holds[h].trip, newNo))
    case _ => own
  }

  // ---- the abstraction relation --------------------------------------------------------

  /** Foreign keys and checks of the schema. */
  ghost predicate Keys(db: Db) {
    && (forall s :: s in db.seats ==> s.trip in db.trips)
    && (forall i :: i in db.items ==>
          i.hold in db.holds && db.items[i].trip == db.holds[i.hold].trip && db.items[i].mask != 0
          && Seat(db.items[i].trip, i.no) in db.seats)
    && (forall q :: q in db.quota ==> Seat(q.trip, q.no) in db.seats)
  }

  /** The rows entitle `o` to segment `k` of seat `s`. */
  ghost predicate Entitled(db: Db, s: Seat, k: nat, o: Owner) {
    match o
    case Nobody => false
    case Held(h) => LiveItem(db, s, k, h, HELD)
    case Sold(h) => LiveItem(db, s, k, h, CONFIRMED)
    case Reserved(q) => InQuota(db, q) && Seat(q.trip, q.no) == s && Bit(q.mask, k)
  }

  ghost predicate LiveItem(db: Db, s: Seat, k: nat, h: HoldId, status: Status) {
    var i := ItemKey(h, s.no);
    && h in db.holds && db.holds[h].status == status && i in db.items
    && db.items[i].trip == s.trip && Bit(db.items[i].mask, k)
  }

  /** The masks of a seat show exactly the held and the sold segments, and cover the reserved ones. */
  ghost predicate Shown(db: Db, own: Owners, s: Seat, k: nat) {
    s in db.seats ==>
      && (Bit(db.seats[s].hold, k) <==> own(s, k).Held?)
      && (Bit(db.seats[s].sold, k) <==> own(s, k).Sold?)
      && (own(s, k).Reserved? ==> Bit(db.seats[s].blocked, k))
  }

  /** The rows entitle `o` exactly when it is the owner. */
  ghost predicate Claim(db: Db, own: Owners, s: Seat, k: nat, o: Owner) {
    o != Nobody ==> (Entitled(db, s, k, o) <==> own(s, k) == o)
  }

  ghost predicate Refines(db: Db, own: Owners) {
    && Keys(db)
    && (forall s, k: nat :: Shown(db, own, s, k))
    && (forall s, k: nat, o :: Claim(db, own, s, k, o))
  }

  // ---- each operation keeps the relation ------------------------------------------------
  //
  // One lemma for what the masks show at a segment, one for who is entitled to it, one for the keys.

  ghost predicate Settles(mv: Move, from: Owner, to: Owner, before: Status, after: Status, h: HoldId) {
    || (mv == HoldToSold && from == Held(h) && to == Sold(h) && before == HELD && after == CONFIRMED)
    || (mv == DropHold && from == Held(h) && to == Nobody && before == HELD && after in {RELEASED, EXPIRED})
    || (mv == Unsell && from == Sold(h) && to == Nobody && before == CONFIRMED && after == RELEASED)
  }

  lemma SettleShown(db: Db, own: Owners, h: HoldId, mv: Move, from: Owner, to: Owner, status: Status, s: Seat, k: nat)
    requires h in db.holds && Settles(mv, from, to, db.holds[h].status, status, h)
    requires ItemKey(h, s.no) in db.items ==> db.items[ItemKey(h, s.no)].trip == db.holds[h].trip
    requires Shown(db, own, s, k) && Claim(db, own, s, k, from)
    ensures Shown(Settle(db, h, mv, status), Rename(own, from, to), s, k)
  {
  }

  lemma SettleClaim(db: Db, own: Owners, h: HoldId, mv: Move, from: Owner, to: Owner, status: Status, s: Seat, k: nat,
          o: Owner)
    requires h in db.holds && Settles(mv, from, to, db.holds[h].status, status, h)
    requires Claim(db, own, s, k, o) && Claim(db, own, s, k, from) && Claim(db, own, s, k, to)
    ensures Claim(Settle(db, h, mv, status), Rename(own, from, to), s, k, o)
  {
  }

  lemma RefinesSettle(db: Db, own: Owners, h: HoldId, mv: Move, from: Owner, to: Owner, status: Status)
    requires Refines(db, own) && h in db.holds && Settles(mv, from, to, db.holds[h].status, status, h)
    ensures Refines(Settle(db, h, mv, status), Rename(own, from, to))
  {
    forall s, k: nat ensures Shown(Settle(db, h, mv, status), Rename(own, from, to), s, k) {
      SettleShown(db, own, h, mv, from, to, status, s, k);
    }
    forall s, k: nat, o ensures Claim(Settle(db, h, mv, status), Rename(own, from, to), s, k, o) {
      SettleClaim(db, own, h, mv, from, to, status, s, k, o);
    }
  }

  /** A segment that passes the availability guard has no owner. */
  lemma FreeIsNobody(db: Db, own: Owners, s: Seat, k: nat, m: Mask)
    requires s in db.seats && Shown(db, own, s, k) && Free(db.seats[s], m) && Bit(m, k)
    ensures own(s, k) == Nobody
  {
    var r := db.seats[s];
    assert !(Bit(Or(Or(r.hold, r.sold), r.blocked), k) && Bit(m, k));
  }

  /** `own2` gives `to` the masked segments of the listed seats and changes nothing else. */
  ghost predicate Given(own: Owners, own2: Owners, trip: TripId, ms: map<SeatNo, Mask>, s: Seat, k: nat, to: Owner) {
    own2(s, k) == if InRequest(trip, ms, s, k) then to else own(s, k)
  }

  ghost predicate InRequest(trip: TripId, ms: map<SeatNo, Mask>, s: Seat, k: nat) {
    s.trip == trip && s.no in ms && Bit(ms[s.no], k)
  }

  lemma AcquiredShown(db: Db, own: Owners, own2: Owners, h: HoldId, trip: TripId, ms: map<SeatNo, Mask>, e: int,
          s: Seat, k: nat)
    requires Shown(db, own, s, k) && Given(own, own2, trip, ms, s, k, Held(h)) && AllReady(db.seats, trip, ms, TakeHold)
    ensures Shown(Acquired(db, h, trip, ms, e), own2, s, k)
  {
  }

  lemma AcquiredClaim(db: Db, own: Owners, own2: Owners, h: HoldId, trip: TripId, ms: map<SeatNo, Mask>, e: int,
          s: Seat, k: nat, o: Owner)
    requires h !in db.holds && ItemKey(h, s.no) !in db.items
    requires Claim(db, own, s, k, o) && Given(own, own2, trip, ms, s, k, Held(h))
    requires InRequest(trip, ms, s, k) ==> own(s, k) == Nobody
    ensures Claim(Acquired(db, h, trip, ms, e), own2, s, k, o)
  {
  }

  lemma RefinesAcquired(db: Db, own: Owners, own2: Owners, h: HoldId, trip: TripId, ms: map<SeatNo, Mask>, e: int)
    requires Refines(db, own) && h !in db.holds && AllReady(db.seats, trip, ms, TakeHold)
    requires forall no :: no in ms ==> ms[no] != 0
    requires forall s, k: nat :: Given(own, own2, trip, ms, s, k, Held(h))
    ensures Refines(Acquired(db, h, trip, ms, e), own2)
  {
    forall s, k: nat ensures Shown(Acquired(db, h, trip, ms, e), own2, s, k) {
      assert Given(own, own2, trip, ms, s, k, Held(h));
      AcquiredShown(db, own, own2, h, trip, ms, e, s, k);
    }
    forall s, k: nat, o ensures Claim(Acquired(db, h, trip, ms, e), own2, s, k, o) {
      assert Given(own, own2, trip, ms, s, k, Held(h)) && Shown(db, own, s, k);
      if InRequest(trip, ms, s, k) { FreeIsNobody(db, own, s, k, ms[s.no]); }
      AcquiredClaim(db, own, own2, h, trip, ms, e, s, k, o);
    }
  }

  lemma AllocatedShown(db: Db, own: Owners, own2: Owners, c: CounterId, trip: TripId, ms: map<SeatNo, Mask>, s: Seat,
          k: nat, to: Owner)
    requires s.no in ms ==> to == Reserved(QuotaKey(c, trip, s.no, ms[s.no]))
    requires Shown(db, own, s, k) && Given(own, own2, trip, ms, s, k, to)
    requires InRequest(trip, ms, s, k) ==> own(s, k) == Nobody
    ensures Shown(Allocated(db, c, trip, ms), own2, s, k)
  {
  }

  lemma AllocatedClaim(db: Db, own: Owners, own2: Owners, c: CounterId, trip: TripId, ms: map<SeatNo, Mask>, s: Seat,
          k: nat, to: Owner, o: Owner)
    requires s.no in ms ==> to == Reserved(QuotaKey(c, trip, s.no, ms[s.no]))
    requires Claim(db, own, s, k, o) && Given(own, own2, trip, ms, s, k, to)
    requires InRequest(trip, ms, s, k) ==> own(s, k) == Nobody
    ensures Claim(Allocated(db, c, trip, ms), own2, s, k, o)
  {
  }

  lemma RefinesAllocated(db: Db, own: Owners, own2: Owners, c: CounterId, trip: TripId, ms: map<SeatNo, Mask>,
          to: SeatNo -> Owner)
    requires Refines(db, own) && AllReady(db.seats, trip, ms, Block)
    requires forall no :: no in ms ==> to(no) == Reserved(QuotaKey(c, trip, no, ms[no]))
    requires forall s: Seat, k: nat :: Given(own, own2, trip, ms, s, k, to(s.no))
    ensures Refines(Allocated(db, c, trip, ms), own2)
  {
    forall s, k: nat ensures Shown(Allocated(db, c, trip, ms), own2, s, k) {
      assert Shown(db, own, s, k) && Given(own, own2, trip, ms, s, k, to(s.no));
      if InRequest(trip, ms, s, k) { FreeIsNobody(db, own, s, k, ms[s.no]); }
      AllocatedShown(db, own, own2, c, trip, ms, s, k, to(s.no));
    }
    forall s, k: nat, o ensures Claim(Allocated(db, c, trip, ms), own2, s, k, o) {
      assert Shown(db, own, s, k) && Claim(db, own, s, k, o) && Given(own, own2, trip, ms, s, k, to(s.no));
      if InRequest(trip, ms, s, k) { FreeIsNobody(db, own, s, k, ms[s.no]); }
      AllocatedClaim(db, own, own2, c, trip, ms, s, k, to(s.no), o);
    }
  }

  lemma ReturnedShown(db: Db, own: Owners, own2: Owners, c: CounterId, trip: TripId, ms: map<SeatNo, Mask>, s: Seat,
          k: nat)
    requires Shown(db, own, s, k)
    requires Given(own, own2, trip, ms, s, k, Nobody)
    requires InRequest(trip, ms, s, k) ==> own(s, k) == Reserved(QuotaKey(c, trip, s.no, ms[s.no]))
    ensures Shown(Returned(db, c, trip, ms), own2, s, k)
  {
  }

  lemma ReturnedClaim(db: Db, own: Owners, own2: Owners, c: CounterId, trip: TripId, ms: map<SeatNo, Mask>, s: Seat,
          k: nat, o: Owner)
    requires Claim(db, own, s, k, o)
    requires Given(own, own2, trip, ms, s, k, Nobody)
    requires InRequest(trip, ms, s, k) ==> own(s, k) == Reserved(QuotaKey(c, trip, s.no, ms[s.no]))
    ensures Claim(Returned(db, c, trip, ms), own2, s, k, o)
  {
  }

  lemma RefinesReturned(db: Db, own: Owners, own2: Owners, c: CounterId, trip: TripId, ms: map<SeatNo, Mask>)
    requires Refines(db, own) && Owned(db, c, trip, ms)
    requires forall s, k: nat :: Given(own, own2, trip, ms, s, k, Nobody)
    ensures Refines(Returned(db, c, trip, ms), own2)
  {
    forall s, k: nat ensures Shown(Returned(db, c, trip, ms), own2, s, k) {
      assert Shown(db, own, s, k) && Given(own, own2, trip, ms, s, k, Nobody);
      if InRequest(trip, ms, s, k) { assert Claim(db, own, s, k, Reserved(QuotaKey(c, trip, s.no, ms[s.no]))); }
      ReturnedShown(db, own, own2, c, trip, ms, s, k);
    }
    forall s, k: nat, o ensures Claim(Returned(db, c, trip, ms), own2, s, k, o) {
      assert Claim(db, own, s, k, o) && Given(own, own2, trip, ms, s, k, Nobody);
      if InRequest(trip, ms, s, k) { assert Claim(db, own, s, k, Reserved(QuotaKey(c, trip, s.no, ms[s.no]))); }
      ReturnedClaim(db, own, own2, c, trip, ms, s, k, o);
    }
  }

  lemma QuotaSaleShown(db: Db, own: Owners, own2: Owners, h: HoldId, c: CounterId, trip: TripId,
          ms: map<SeatNo, Mask>, now: int, s: Seat, k: nat)
    requires Shown(db, own, s, k)
    requires Given(own, own2, trip, ms, s, k, Sold(h))
    requires InRequest(trip, ms, s, k) ==> own(s, k) == Reserved(QuotaKey(c, trip, s.no, ms[s.no]))
    ensures Shown(QuotaSale(db, h, c, trip, ms, now), own2, s, k)
  {
  }

  lemma QuotaSaleClaim(db: Db, own: Owners, own2: Owners, h: HoldId, c: CounterId, trip: TripId,
          ms: map<SeatNo, Mask>, now: int, s: Seat, k: nat, o: Owner)
    requires h !in db.holds && ItemKey(h, s.no) !in db.items
    requires Claim(db, own, s, k, o)
    requires Given(own, own2, trip, ms, s, k, Sold(h))
    requires InRequest(trip, ms, s, k) ==> own(s, k) == Reserved(QuotaKey(c, trip, s.no, ms[s.no]))
    ensures Claim(QuotaSale(db, h, c, trip, ms, now), own2, s, k, o)
  {
  }

  lemma TouchKeepsKeys(seats: map<Seat, SeatRow>, trip: TripId, ms: map<SeatNo, Mask>, mv: Move)
    ensures Touch(seats, trip, ms, mv).Keys == seats.Keys
  {
    hide Apply;
  }

  lemma QuotaSaleKeys(db: Db, h: HoldId, c: CounterId, trip: TripId, ms: map<SeatNo, Mask>, now: int)
    requires Keys(db) && h !in db.holds && Owned(db, c, trip, ms)
    requires forall no :: no in ms ==> ms[no] != 0
    ensures Keys(QuotaSale(db, h, c, trip, ms, now))
  {
    TouchKeepsKeys(db.seats, trip, ms, BlockToSold);
    hide Touch, NewItems, QuotaRows, Apply;
    var db2 := QuotaSale(db, h, c, trip, ms, now);
    forall no | no in ms ensures Seat(trip, no) in db.seats { assert QuotaKey(c, trip, no, ms[no]) in db.quota; }
    hide Owned;
    forall i | i in db2.items
      ensures i.hold in db2.holds && db2.items[i].trip == db2.holds[i.hold].trip && db2.items[i].mask != 0
              && Seat(db2.items[i].trip, i.no) in db2.seats
    {
      assert i.hold != h ==> i in db.items;
    }
  }

  lemma QuotaSaleCells(db: Db, own: Owners, own2: Owners, h: HoldId, c: CounterId, trip: TripId,
          ms: map<SeatNo, Mask>, now: int, s: Seat, k: nat, o: Owner)
    requires h !in db.holds && ItemKey(h, s.no) !in db.items && Owned(db, c, trip, ms)
    requires Shown(db, own, s, k) && Claim(db, own, s, k, o) && Given(own, own2, trip, ms, s, k, Sold(h))
    requires s.no in ms ==> Claim(db, own, s, k, Reserved(QuotaKey(c, trip, s.no, ms[s.no])))
    ensures Shown(QuotaSale(db, h, c, trip, ms, now), own2, s, k) && Claim(QuotaSale(db, h, c, trip, ms, now), own2, s, k, o)
  {
    assert InRequest(trip, ms, s, k) ==> own(s, k) == Reserved(QuotaKey(c, trip, s.no, ms[s.no]));
    QuotaSaleShown(db, own, own2, h, c, trip, ms, now, s, k);
    QuotaSaleClaim(db, own, own2, h, c, trip, ms, now, s, k, o);
  }

  lemma RefinesQuotaSale(db: Db, own: Owners, own2: Owners, h: HoldId, c: CounterId, trip: TripId,
          ms: map<SeatNo, Mask>, now: int)
    requires Refines(db, own) && h !in db.holds && Owned(db, c, trip, ms)
    requires forall no :: no in ms ==> ms[no] != 0
    requires forall s, k: nat :: Given(own, own2, trip, ms, s, k, Sold(h))
    ensures Refines(QuotaSale(db, h, c, trip, ms, now), own2)
  {
    QuotaSaleKeys(db, h, c, trip, ms, now);
    forall s, k: nat, o
      ensures Shown(QuotaSale(db, h, c, trip, ms, now), own2, s, k) && Claim(QuotaSale(db, h, c, trip, ms, now), own2, s, k, o)
    {
      assert Given(own, own2, trip, ms, s, k, Sold(h)) && Shown(db, own, s, k) && Claim(db, own, s, k, o);
      if s.no in ms { assert Claim(db, own, s, k, Reserved(QuotaKey(c, trip, s.no, ms[s.no]))); }
      QuotaSaleCells(db, own, own2, h, c, trip, ms, now, s, k, o);
    }
    forall s, k: nat ensures Shown(QuotaSale(db, h, c, trip, ms, now), own2, s, k) {
      assert Claim(QuotaSale(db, h, c, trip, ms, now), own2, s, k, Nobody);
    }
  }

  lemma MovedShown(db: Db, own: Owners, h: HoldId, oldNo: SeatNo, newNo: SeatNo, s: Seat, k: nat)
    requires ItemKey(h, oldNo) in db.items && oldNo != newNo
    requires var item := db.items[ItemKey(h, oldNo)];
      var from, to := Seat(item.trip, oldNo), Seat(item.trip, newNo);
      && from in db.seats && to in db.seats && Free(db.seats[to], item.mask)
      && (Bit(item.mask, k) <==> own(from, k) == Sold(h))
      && Shown(db, own, s, k)
    ensures var trip := db.items[ItemKey(h, oldNo)].trip;
      Shown(Moved(db, h, oldNo, newNo), OnSeat(own, h, Seat(trip, oldNo), Seat(trip, newNo)), s, k)
  {
  }

  lemma MovedClaim(db: Db, own: Owners, h: HoldId, oldNo: SeatNo, newNo: SeatNo, s: Seat, k: nat, o: Owner)
    requires ItemKey(h, oldNo) in db.items && oldNo != newNo && ItemKey(h, newNo) !in db.items
    requires h in db.holds && db.holds[h].status == CONFIRMED
    requires var item := db.items[ItemKey(h, oldNo)];
      var from, to := Seat(item.trip, oldNo), Seat(item.trip, newNo);
      && from in db.seats && to in db.seats && Free(db.seats[to], item.mask)
      && (Bit(item.mask, k) <==> own(from, k) == Sold(h))
      && Shown(db, own, to, k) && Claim(db, own, s, k, o) && Claim(db, own, s, k, Sold(h))
    ensures var trip := db.items[ItemKey(h, oldNo)].trip;
      Claim(Moved(db, h, oldNo, newNo), OnSeat(own, h, Seat(trip, oldNo), Seat(trip, newNo)), s, k, o)
  {
    var item := db.items[ItemKey(h, oldNo)];
    var to := Seat(item.trip, newNo);
    if Bit(item.mask, k) { FreeIsNobody(db, own, to, k, item.mask); }
  }

  lemma RefinesMoved(db: Db, own: Owners, h: HoldId, oldNo: SeatNo, newNo: SeatNo)
    requires Refines(db, own) && h in db.holds && db.holds[h].status == CONFIRMED
    requires oldNo != newNo && Reassign(db, h, oldNo, newNo).out == Ok
    ensures var trip := db.holds[h].trip;
      Refines(Moved(db, h, oldNo, newNo), OnSeat(own, h, Seat(trip, oldNo), Seat(trip, newNo)))
  {
    var db' := Moved(db, h, oldNo, newNo);
    var item := db.items[ItemKey(h, oldNo)];
    var from, to := Seat(item.trip, oldNo), Seat(item.trip, newNo);
    forall s, k: nat ensures Shown(db', OnSeat(own, h, from, to), s, k) {
      assert Shown(db, own, s, k) && Claim(db, own, from, k, Sold(h));
      MovedShown(db, own, h, oldNo, newNo, s, k);
    }
    forall s, k: nat, o ensures Claim(db', OnSeat(own, h, from, to), s, k, o) {
      assert Shown(db, own, to, k) && Claim(db, own, from, k, Sold(h));
      assert Claim(db, own, s, k, o) && Claim(db, own, s, k, Sold(h));
      MovedClaim(db, own, h, oldNo, newNo, s, k, o);
    }
  }

  lemma RefinesWithdraw(db: Db, own: Owners, trip: TripId, no: SeatNo)
    requires Refines(db, own)
    ensures Refines(WithdrawSeat(db, trip, no).db, own)
  {
    var db' := WithdrawSeat(db, trip, no).db;
    forall s, k: nat ensures Shown(db', own, s, k) { assert Shown(db, own, s, k); }
    forall s, k: nat, o ensures Claim(db', own, s, k, o) { assert Claim(db, own, s, k, o); }
  }

  /** New seats have no owner and empty hold and sold masks. */
  lemma RefinesNewSeats(db: Db, own: Owners, trip: TripId, segments: nat, specs: seq<SeatSpec>, trips: map<TripId, nat>)
    requires Refines(db, own) && trip in trips && db.trips.Keys <= trips.Keys
    ensures Refines(db.(trips := trips, seats := WithSeats(db.seats, trip, segments, specs)), own)
  {
    var db' := db.(trips := trips, seats := WithSeats(db.seats, trip, segments, specs));
    NewSeats(db.seats, trip, segments, specs);
    ZeroHasNoBits();
    forall s, k: nat ensures Shown(db', own, s, k) { assert Shown(db, own, s, k) && Claim(db, own, s, k, own(s, k)); }
    forall s, k: nat, o ensures Claim(db', own, s, k, o) { assert Claim(db, own, s, k, o); }
  }

  lemma {:induction false} RefinesSweep(db: Db, own: Owners, dues: seq<HoldId>)
    requires Refines(db, own) && Distinct(dues)
    requires forall h :: h in dues ==> h in db.holds && db.holds[h].status == HELD
    ensures Refines(Sweep(db, dues).db, Freed(own, dues))
    ensures forall h :: h in db.holds && h !in dues ==> Sweep(db, dues).db.holds[h] == db.holds[h]
  {
    if dues != [] {
      var n := |dues| - 1;
      assert dues == dues[..n] + [dues[n]];
      RefinesSweep(db, own, dues[..n]);
      var mid := Sweep(db, dues[..n]).db;
      assert dues[n] !in dues[..n];
      RefinesSettle(mid, Freed(own, dues[..n]), dues[n], DropHold, Held(dues[n]), Nobody, EXPIRED);
    }
  }

  // ---- one step, any run -----------------------------------------------------------------

  /** What Reassign asks of the item, of the seat it leaves and of the seat it takes. */
  predicate Movable(db: Db, h: HoldId, oldNo: SeatNo, newNo: SeatNo) {
    && oldNo != newNo && ItemKey(h, oldNo) in db.items && ItemKey(h, newNo) !in db.items
    && var item := db.items[ItemKey(h, oldNo)];
    && Seat(item.trip, oldNo) in db.seats && Covers(db.seats[Seat(item.trip, oldNo)].sold, item.mask)
    && Seat(item.trip, newNo) in db.seats && Free(db.seats[Seat(item.trip, newNo)], item.mask)
  }

  /** The items of a settled hold stay in the table. If its old segments were sold again to
      somebody else, Reassign moves that other sale to a seat nobody paid for. */
  predicate Strands(db: Db, h: HoldId, oldNo: SeatNo, newNo: SeatNo) {
    Movable(db, h, oldNo, newNo) && h in db.holds && Settled(db.holds[h].status)
  }

  /** Everything but a Reassign that strands a sale. */
  predicate Guarded(db: Db, op: Op) {
    op.OpReassign? ==> !Strands(db, op.h, op.oldNo, op.newNo)
  }

  lemma HeldIsNotSold(db: Db, own: Owners, h: HoldId, no: SeatNo)
    requires Refines(db, own) && ItemKey(h, no) in db.items
    ensures db.holds[h].status == HELD ==>
      !Covers(db.seats[Seat(db.items[ItemKey(h, no)].trip, no)].sold, db.items[ItemKey(h, no)].mask)
  {
    var item := db.items[ItemKey(h, no)];
    var s, k := Seat(item.trip, no), LowBit(item.mask);
    assert Claim(db, own, s, k, Held(h)) && Shown(db, own, s, k);
  }

  lemma RefinesReassign(db: Db, own: Owners, op: Op)
    requires Refines(db, own) && op.OpReassign? && Guarded(db, op) && Step(db, op).out == Ok
    ensures Refines(Step(db, op).db, After(own, db, op))
  {
    if op.oldNo != op.newNo {
      HeldIsNotSold(db, own, op.h, op.oldNo);
      RefinesMoved(db, own, op.h, op.oldNo, op.newNo);
    }
  }

  /** The masks of every seat keep refining the owner map, and a refused operation changes nothing. */
  lemma StepRefines(db: Db, own: Owners, op: Op)
    requires Refines(db, own) && Guarded(db, op)
    ensures Step(db, op).out == Ok ==> Refines(Step(db, op).db, After(own, db, op))
    ensures Step(db, op).out != Ok ==> Step(db, op).db == db && Step(db, op).log == []
  {
    hide Refines;
    if Step(db, op).out == Ok {
      match op
      case OpOpen(trip, segments, specs) => RefinesNewSeats(db, own, trip, segments, specs, db.trips[trip := segments]);
      case OpAdd(trip, specs) => RefinesNewSeats(db, own, trip, db.trips[trip], specs, db.trips);
      case OpAcquire(h, trip, seats, board, drop, expires) => RefinesAcquire(db, own, h, trip, seats, board, drop, expires);
      case OpConfirm(h) => RefinesSettling(db, own, op);
      case OpRelease(h, _) => RefinesSettling(db, own, op);
      case OpUnsell(h) => RefinesSettling(db, own, op);
      case OpSweep(dues, now) => RefinesSweep(db, own, dues);
      case OpAllocate(counter, trip, seats, board, drop) => RefinesAllocate(db, own, counter, trip, seats, board, drop);
      case OpReturn(_, _, _, _) => RefinesReturn(db, own, op);
      case OpSell(h, counter, trip, seats, board, drop, now) => RefinesSell(db, own, h, counter, trip, seats, board, drop, now);
      case OpReassign(_, _, _) => RefinesReassign(db, own, op);
      case OpWithdraw(trip, no) => RefinesWithdraw(db, own, trip, no);
    }
  }

  lemma GiveIsGiven(own: Owners, trip: TripId, seats: seq<SeatNo>, board: int, drop: int, to: SeatNo -> Owner,
          s: Seat, k: nat)
    requires SegmentMask(board, drop).Some?
    ensures Given(own, Give(own, trip, seats, board, drop, to), trip, Each(seats, SegmentMask(board, drop).value), s, k, to(s.no))
  {
    JourneyBits(board, drop);
  }

  lemma RefinesAcquire(db: Db, own: Owners, h: HoldId, trip: TripId, seats: seq<SeatNo>, board: int, drop: int,
          expires: int)
    requires Refines(db, own) && AcquireHold(db, h, trip, seats, board, drop, expires).out == Ok
    ensures Refines(AcquireHold(db, h, trip, seats, board, drop, expires).db, Give(own, trip, seats, board, drop, _ => Held(h)))
  {
    hide Refines, Given, AllReady, Distinct, SeatEvents, Acquired;
    JourneyNotEmpty(board, drop);
    var own2 := Give(own, trip, seats, board, drop, _ => Held(h));
    var ms := Each(seats, SegmentMask(board, drop).value);
    forall s, k: nat ensures Given(own, own2, trip, ms, s, k, Held(h)) {
      GiveIsGiven(own, trip, seats, board, drop, _ => Held(h), s, k);
    }
    RefinesAcquired(db, own, own2, h, trip, ms, expires);
  }

  lemma RefinesAllocate(db: Db, own: Owners, c: CounterId, trip: TripId, seats: seq<SeatNo>, board: int, drop: int)
    requires Refines(db, own) && AllocateQuota(db, c, trip, seats, board, drop).out == Ok
    ensures Refines(AllocateQuota(db, c, trip, seats, board, drop).db, Give(own, trip, seats, board, drop, QuotaOf(c, trip, board, drop)))
  {
    hide Refines;
    var to := QuotaOf(c, trip, board, drop);
    var own2, ms := Give(own, trip, seats, board, drop, to), Each(seats, SegmentMask(board, drop).value);
    forall s: Seat, k: nat ensures Given(own, own2, trip, ms, s, k, to(s.no)) {
      GiveIsGiven(own, trip, seats, board, drop, to, s, k);
    }
    RefinesAllocated(db, own, own2, c, trip, ms, to);
  }

  lemma RefinesSell(db: Db, own: Owners, h: HoldId, c: CounterId, trip: TripId, seats: seq<SeatNo>, board: int,
          drop: int, now: int)
    requires Refines(db, own) && SellQuota(db, h, c, trip, seats, board, drop, now).out == Ok
    ensures Refines(SellQuota(db, h, c, trip, seats, board, drop, now).db, Give(own, trip, seats, board, drop, _ => Sold(h)))
  {
    hide Refines, Given, AllReady, Distinct, SeatEvents, Owned, QuotaSale;
    JourneyNotEmpty(board, drop);
    var own2, ms := Give(own, trip, seats, board, drop, _ => Sold(h)), Each(seats, SegmentMask(board, drop).value);
    forall s, k: nat ensures Given(own, own2, trip, ms, s, k, Sold(h)) {
      GiveIsGiven(own, trip, seats, board, drop, _ => Sold(h), s, k);
    }
    RefinesQuotaSale(db, own, own2, h, c, trip, ms, now);
  }

  lemma RefinesReturn(db: Db, own: Owners, op: Op)
    requires Refines(db, own) && op.OpReturn?
    ensures Refines(Step(db, op).db, After(own, db, op))
  {
    var ms := Each(Returnable(db, op.counter, op.trip, op.seats, op.mask), op.mask);
    forall s: Seat, k: nat ensures Given(own, After(own, db, op), op.trip, ms, s, k, Nobody) {
      assert Claim(db, own, s, k, Reserved(QuotaKey(op.counter, op.trip, s.no, op.mask)));
    }
    RefinesReturned(db, own, After(own, db, op), op.counter, op.trip, ms);
  }

  lemma RefinesSettling(db: Db, own: Owners, op: Op)
    requires Refines(db, own) && (op.OpConfirm? || op.OpRelease? || op.OpUnsell?) && Step(db, op).out == Ok
    ensures Refines(Step(db, op).db, After(own, db, op))
  {
    var h, status := op.h, db.holds[op.h].status;
    if op.OpConfirm? && status == HELD { RefinesSettle(db, own, h, HoldToSold, Held(h), Sold(h), CONFIRMED); }
    else if op.OpRelease? && status == HELD { RefinesSettle(db, own, h, DropHold, Held(h), Nobody, if op.expired then EXPIRED else RELEASED); }
    else if op.OpUnsell? && status == CONFIRMED { RefinesSettle(db, own, h, Unsell, Sold(h), Nobody, RELEASED); }
    else {
      forall s, k: nat ensures After(own, db, op)(s, k) == own(s, k) {
        assert Claim(db, own, s, k, if op.OpUnsell? then Sold(h) else Held(h));
      }
      RefinesPointwise(db, own, After(own, db, op));
    }
  }

  lemma RefinesPointwise(db: Db, own: Owners, own2: Owners)
    requires Refines(db, own) && forall s, k: nat :: own2(s, k) == own(s, k)
    ensures Refines(db, own2)
  {
    forall s, k: nat ensures Shown(db, own2, s, k) { assert Shown(db, own, s, k) && own2(s, k) == own(s, k); }
    forall s, k: nat, o ensures Claim(db, own2, s, k, o) { assert Claim(db, own, s, k, o) && own2(s, k) == own(s, k); }
  }

  /** No Reassign of the run strands a sale. */
  predicate GuardedRun(ops: seq<Op>) {
    ops == [] || (GuardedRun(ops[..|ops| - 1]) && Guarded(Run(ops[..|ops| - 1]).db, ops[|ops| - 1]))
  }

  /** The owners after a run, computed without looking at a mask. */
  function OwnersOf(ops: seq<Op>): Owners {
    if ops == [] then NobodyOwns()
    else
      var before := ops[..|ops| - 1];
      if Run(ops).out == Ok then After(OwnersOf(before), Run(before).db, ops[|ops| - 1]) else OwnersOf(before)
  }

  lemma {:induction false} RunRefines(ops: seq<Op>)
    requires GuardedRun(ops)
    ensures Refines(Run(ops).db, OwnersOf(ops))
  {
    if ops == [] {
      forall s, k: nat, o ensures Claim(EMPTY, NobodyOwns(), s, k, o) {}
    } else {
      hide Refines;
      var n := |ops| - 1;
      RunRefines(ops[..n]);
      StepRefines(Run(ops[..n]).db, OwnersOf(ops[..n]), ops[n]);
    }
  }
}
