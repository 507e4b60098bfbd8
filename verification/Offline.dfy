/** Replaying a counter's offline queue (handleReplayOffline in services/api/httpapi/counter.go). */
module OfflineSales {
  import opened Wrappers
  import opened Bits
  import opened Inventory
  import opened Ownership
  import opened Laws
  import opened Ledger
  import opened SagaTables
  import opened CashDrawer
  import Payments

  type Ref = nat

  /** A queued sale. The terminal names the shift, if any, and nobody checks it; `hold` and `booking` are the ids
      that are drawn for the sale. */
  datatype Sale = Sale(ref: Ref, trip: TripId, seats: seq<SeatNo>, board: int, drop: int, total: int, shift: Option<ShiftId>,
                       hold: HoldId, booking: BookingId)

  /** The offline_sales row: status, and the booking of a sale that went through. */
  datatype Row = Row(rejected: bool, booking: Option<BookingId>)

  datatype State = State(db: Db, shop: Shop, drawers: Drawers, refs: map<Ref, Row>)

  datatype Answer = Booked(b: BookingId) | Rejected | AlreadyReplayed(row: Row)

  /** After which commit the process dies while it handles one sale, if it gets there. `BeforeRecord` is after the
      cash row, or after whatever failed, and before the row of the reference is updated. */
  datatype Crash = Never | AfterClaim | AfterSeats | AfterBooking | AfterPayment | AfterTicket | BeforeRecord

  datatype Delivery = Delivery(sale: Sale, crash: Crash, now: int)

  /** SettleCounterSale in cash, for a booking whose hold is CONFIRMED. */
  function SettleCash(shop: Shop, b: BookingId, total: int): Shop {
    var p := Payment(b, total);
    if !Inserts(shop, PayKey(CASH, b), p) then shop else Finalise(Pay(shop, PayKey(CASH, b), p), b, CounterPostings(total, true))
  }

  predicate IsTicketed(shop: Shop, b: BookingId) { b in shop.bookings && shop.bookings[b].status == TICKETED }

  datatype Fate = Dead | Failed | Replayed

  /** replayOne: take the seats, book, settle, and put the cash into the drawer. */
  function Replay(db: Db, shop: Shop, drawers: Drawers, counter: CounterId, sale: Sale, crash: Crash, now: int): (Db,
          Shop, Drawers, Fate) {
    var r := SellQuota(db, sale.hold, counter, sale.trip, sale.seats, sale.board, sale.drop, now);
    var created, key, p := Create(shop, sale.booking, sale.hold, sale.seats, sale.total), PayKey(CASH, sale.booking), Payment(sale.booking, sale.total);
    if r.out != Ok then (db, shop, drawers, Failed)
    else if crash == AfterSeats then (r.db, shop, drawers, Dead)
    else if crash == AfterBooking then (r.db, created, drawers, Dead)
    else if crash == AfterPayment && Inserts(created, key, p) then (r.db, Pay(created, key, p), drawers, Dead)
    else
      var settled := SettleCash(created, sale.booking, sale.total);
      if !IsTicketed(settled, sale.booking) then (r.db, settled, drawers, Failed)
      else if crash == AfterTicket then (r.db, settled, drawers, Dead)
      else (r.db, settled, Draw(drawers, sale.shift, sale.booking, sale.total), if Usable(drawers, sale.shift) then Replayed else Failed)
  }

  const CLAIMED := Row(false, None)

  /** The row of the reference after its sale: claimed first, updated last. */
  function Recorded(d: Delivery, fate: Fate): Row {
    if fate == Dead || d.crash == BeforeRecord then CLAIMED
    else if fate == Replayed then Row(false, Some(d.sale.booking))
    else Row(true, None)
  }

  /** One sale of the queue: claim the reference, replay the sale, record the outcome. */
  function Handle(st: State, counter: CounterId, d: Delivery): (State, Answer) {
    var sale := d.sale;
    if sale.ref in st.refs then (st, AlreadyReplayed(st.refs[sale.ref]))
    else if d.crash == AfterClaim then (st.(refs := st.refs[sale.ref := CLAIMED]), Rejected)
    else
      var r := Replay(st.db, st.shop, st.drawers, counter, sale, d.crash, d.now);
      (State(r.0, r.1, r.2, st.refs[sale.ref := Recorded(d, r.3)]), if r.3 == Replayed then Booked(sale.booking) else Rejected)
  }

  /** Any number of flushes is one sequence of deliveries. */
  function Flush(st: State, counter: CounterId, ds: seq<Delivery>): State {
    if ds == [] then st else Handle(Flush(st, counter, ds[..|ds| - 1]), counter, ds[|ds| - 1]).0
  }

  function Answers(st: State, counter: CounterId, ds: seq<Delivery>): (r: seq<Answer>)
    ensures |r| == |ds|
  {
    if ds == [] then []
    else
      var init := ds[..|ds| - 1];
      Answers(st, counter, init) + [Handle(Flush(st, counter, init), counter, ds[|ds| - 1]).1]
  }

  /** The deliveries that are the first of their reference. */
  function Firsts(ds: seq<Delivery>): seq<Delivery> {
    if ds == [] then []
    else
      var init, last := Firsts(ds[..|ds| - 1]), ds[|ds| - 1];
      if exists d :: d in ds[..|ds| - 1] && d.sale.ref == last.sale.ref then init else init + [last]
  }

  lemma HandleClaims(st: State, counter: CounterId, d: Delivery)
    ensures Handle(st, counter, d).0.refs.Keys == st.refs.Keys + {d.sale.ref}
  {
    hide SellQuota, Replay;
  }

  lemma {:induction false} Claimed(st: State, counter: CounterId, ds: seq<Delivery>)
    ensures forall ref :: ref in Flush(st, counter, ds).refs <==> ref in st.refs || exists d :: d in ds && d.sale.ref == ref
  {
    hide Handle;
    if ds != [] {
      var init, last := ds[..|ds| - 1], ds[|ds| - 1];
      Claimed(st, counter, init);
      assert ds == init + [last];
      var before, after := Flush(st, counter, init), Flush(st, counter, ds);
      HandleClaims(before, counter, last);
      forall ref ensures ref in after.refs <==> ref in st.refs || exists d :: d in ds && d.sale.ref == ref {
        assert (exists d :: d in ds && d.sale.ref == ref) <==> ref == last.sale.ref || exists d :: d in init && d.sale.ref == ref by {
          assert last in ds;
          assert forall d :: d in init ==> d in ds;
        }
      }
    }
  }

  lemma {:induction false} FlushAppends(st: State, counter: CounterId, a: seq<Delivery>, b: seq<Delivery>)
    ensures Flush(st, counter, a + b) == Flush(Flush(st, counter, a), counter, b)
  {
    if b == [] {
      assert a + b == a;
    } else {
      assert (a + b)[..|a + b| - 1] == a + b[..|b| - 1];
      FlushAppends(st, counter, a, b[..|b| - 1]);
    }
  }

  /** However often the queue is flushed, with whatever repeats and prefixes, quota, masks, bookings and
      recorded outcomes are those of handling each reference once, in first-arrival order. */
  lemma {:induction false} FlushIsIdempotent(st: State, counter: CounterId, ds: seq<Delivery>)
    ensures Flush(st, counter, ds) == Flush(st, counter, Firsts(ds))
  {
    if ds != [] {
      var init, last := ds[..|ds| - 1], ds[|ds| - 1];
      FlushIsIdempotent(st, counter, init);
      Claimed(st, counter, init);
      if !exists d :: d in init && d.sale.ref == last.sale.ref {
        assert Firsts(ds)[..|Firsts(ds)| - 1] == Firsts(init);
      }
    }
  }

  // ---- what one sale can do to the inventory -----------------------------------------------------

  /** SellQuota succeeds exactly on distinct seats that are all ALLOCATED to this counter for the leg. */
  lemma SellIsExact(db: Db, own: Owners, h: HoldId, counter: CounterId, trip: TripId, seats: seq<SeatNo>, board: int,
          drop: int, now: int)
    requires Refines(db, own) && h !in db.holds
    ensures var r := SellQuota(db, h, counter, trip, seats, board, drop, now);
      && (r.out == Ok <==>
            && SegmentMask(board, drop).Some? && seats != [] && Distinct(seats)
            && forall no :: no in seats ==> InQuota(db, QuotaKey(counter, trip, no, SegmentMask(board, drop).value)))
      && (r.out != Ok ==> r.db == db)
      && (r.out == Ok ==> forall no :: no in seats ==> !InQuota(r.db, QuotaKey(counter, trip, no, SegmentMask(board, drop).value)))
  {
    hide Refines;
    if SegmentMask(board, drop).Some? {
      var ms := Each(seats, SegmentMask(board, drop).value);
      assert Owned(db, counter, trip, ms) <==> forall no :: no in seats ==> InQuota(db, QuotaKey(counter, trip, no, SegmentMask(board, drop).value)) by {
        assert forall no :: no in seats <==> no in ms;
      }
      if Owned(db, counter, trip, ms) { QuotaIsAlwaysBlocked(db, own, counter, trip, ms); }
    }
  }

  /** A sale of anything that is not this counter's leaves the inventory as it was. */
  lemma ForeignSeatsChangeNothing(st: State, own: Owners, counter: CounterId, d: Delivery, no: SeatNo)
    requires Refines(st.db, own) && d.sale.hold !in st.db.holds && no in d.sale.seats && SegmentMask(d.sale.board, d.sale.drop).Some?
    requires !InQuota(st.db, QuotaKey(counter, d.sale.trip, no, SegmentMask(d.sale.board, d.sale.drop).value))
    ensures Handle(st, counter, d).0 == st.(refs := Handle(st, counter, d).0.refs)
    ensures !Handle(st, counter, d).1.Booked?
  {
    SellIsExact(st.db, own, d.sale.hold, counter, d.sale.trip, d.sale.seats, d.sale.board, d.sale.drop, d.now);
  }

  lemma SellNeverAllocates(db: Db, h: HoldId, counter: CounterId, trip: TripId, seats: seq<SeatNo>, board: int,
          drop: int, now: int, q: QuotaKey)
    requires !InQuota(db, q)
    ensures !InQuota(SellQuota(db, h, counter, trip, seats, board, drop, now).db, q)
  {
    hide AllReady, Touch, Owned, Distinct;
  }

  lemma HandleNeverAllocates(st: State, counter: CounterId, d: Delivery, q: QuotaKey)
    requires !InQuota(st.db, q)
    ensures !InQuota(Handle(st, counter, d).0.db, q)
  {
    var sale := d.sale;
    SellNeverAllocates(st.db, sale.hold, counter, sale.trip, sale.seats, sale.board, sale.drop, d.now, q);
    HandleSells(st, counter, d);
    SaleStep(st.db, counter, d);
    hide Handle, SellQuota, InQuota, Step;
  }

  lemma {:induction false} FlushNeverAllocates(st: State, counter: CounterId, ds: seq<Delivery>, q: QuotaKey)
    requires !InQuota(st.db, q)
    ensures !InQuota(Flush(st, counter, ds).db, q)
  {
    hide Handle, InQuota;
    if ds != [] {
      FlushNeverAllocates(st, counter, ds[..|ds| - 1], q);
      HandleNeverAllocates(Flush(st, counter, ds[..|ds| - 1]), counter, ds[|ds| - 1], q);
    }
  }

  /** The delivery sells the allocation `q` when it is handled in state `st`. */
  predicate SellsAllocation(st: State, counter: CounterId, d: Delivery, q: QuotaKey) {
    InQuota(st.db, q) && !InQuota(Handle(st, counter, d).0.db, q)
  }

  /** No allocation of a quota seat is sold twice. */
  lemma OneSalePerAllocation(st: State, counter: CounterId, ds: seq<Delivery>, i: nat, j: nat, q: QuotaKey)
    requires i < j < |ds|
    requires SellsAllocation(Flush(st, counter, ds[..i]), counter, ds[i], q)
    ensures !SellsAllocation(Flush(st, counter, ds[..j]), counter, ds[j], q)
  {
    hide Handle, InQuota;
    assert ds[..i + 1][..i] == ds[..i];
    assert ds[..j] == ds[..i + 1] + ds[i + 1..j];
    FlushAppends(st, counter, ds[..i + 1], ds[i + 1..j]);
    FlushNeverAllocates(Flush(st, counter, ds[..i + 1]), counter, ds[i + 1..j], q);
  }

  lemma SellRefusal(db: Db, h: HoldId, counter: CounterId, trip: TripId, seats: seq<SeatNo>, board: int, drop: int,
          now: int)
    ensures SellQuota(db, h, counter, trip, seats, board, drop, now).out != Ok ==> SellQuota(db, h, counter, trip, seats, board, drop, now).db == db
  {
    hide AllReady, Touch, Owned, Distinct;
  }

  /** SellQuota creates its hold CONFIRMED, so the ConfirmHold of the settlement has nothing to do. */
  lemma SoldHoldIsConfirmed(db: Db, h: HoldId, counter: CounterId, trip: TripId, seats: seq<SeatNo>, board: int,
          drop: int, now: int)
    requires SellQuota(db, h, counter, trip, seats, board, drop, now).out == Ok
    ensures ConfirmHold(SellQuota(db, h, counter, trip, seats, board, drop, now).db, h)
         == Refuse(SellQuota(db, h, counter, trip, seats, board, drop, now).db, Ok)
  {
    hide AllReady, Touch, Owned, Distinct, NewItems, QuotaRows, Each, SeatEvents;
  }

  /** The settlement of a booking that was just created. */
  lemma SettleCashSteps(shop: Shop, sale: Sale)
    ensures var created, p := Create(shop, sale.booking, sale.hold, sale.seats, sale.total), Payment(sale.booking, sale.total);
      var key, postings := PayKey(CASH, sale.booking), CounterPostings(sale.total, true);
      var settled := SettleCash(created, sale.booking, sale.total);
      && created.bookings[sale.booking].status == PAYMENT_PENDING
      && (!Inserts(created, key, p) ==> settled == created && Pay(created, key, p) == created && !IsTicketed(settled, sale.booking))
      && (Inserts(created, key, p) ==>
            && settled == Finalise(Pay(created, key, p), sale.booking, postings)
            && Pay(created, key, p).bookings == created.bookings
            && (IsTicketed(settled, sale.booking) <==> Journal(postings).Some?))
  {
    hide CounterPostings, Journal;
  }

  lemma Overwritten<K, V>(m: map<K, V>, k: K, a: V, b: V)
    ensures m[k := a][k := b] == m[k := b]
  {
  }

  function SaleOp(counter: CounterId, d: Delivery): Op {
    OpSell(d.sale.hold, counter, d.sale.trip, d.sale.seats, d.sale.board, d.sale.drop, d.now)
  }

  lemma SaleStep(db: Db, counter: CounterId, d: Delivery)
    ensures Step(db, SaleOp(counter, d)) == SellQuota(db, d.sale.hold, counter, d.sale.trip, d.sale.seats, d.sale.board, d.sale.drop, d.now)
  {
    hide SellQuota;
  }

  lemma HandleSells(st: State, counter: CounterId, d: Delivery)
    ensures Handle(st, counter, d).0.db == st.db || Handle(st, counter, d).0.db == Step(st.db, SaleOp(counter, d)).db
  {
    hide SellQuota, SettleCash;
  }

  lemma HandleRefines(st: State, own: Owners, counter: CounterId, d: Delivery) returns (own2: Owners)
    requires Refines(st.db, own)
    ensures Refines(Handle(st, counter, d).0.db, own2)
  {
    StepRefines(st.db, own, SaleOp(counter, d));
    HandleSells(st, counter, d);
    hide Refines, Handle, Step, After;
    own2 := own;
    if Handle(st, counter, d).0.db != st.db && Step(st.db, SaleOp(counter, d)).out == Ok { own2 := After(own, st.db, SaleOp(counter, d)); }
  }

  /** Replays book no segment twice: the masks keep refining one owner per segment. */
  lemma {:induction false} FlushRefines(st: State, own: Owners, counter: CounterId, ds: seq<Delivery>)
    returns (own2: Owners)
    requires Refines(st.db, own)
    ensures Refines(Flush(st, counter, ds).db, own2)
  {
    hide Refines, Handle;
    own2 := own;
    if ds != [] {
      own2 := FlushRefines(st, own, counter, ds[..|ds| - 1]);
      own2 := HandleRefines(Flush(st, counter, ds[..|ds| - 1]), own2, counter, ds[|ds| - 1]);
    }
  }

  // ---- what is not promised ---------------------------------------------------------------------

  /** The sale gets its seats, and can be paid and booked. */
  predicate GetsSeats(st: State, counter: CounterId, d: Delivery) {
    SellQuota(st.db, d.sale.hold, counter, d.sale.trip, d.sale.seats, d.sale.board, d.sale.drop, d.now).out == Ok
  }

  predicate Bookable(st: State, sale: Sale) {
    sale.total >= SERVICE_FEE && PayKey(CASH, sale.booking) !in st.shop.payments
  }

  /** It is ticketed if the process lives that long. */
  predicate GetsTicket(st: State, counter: CounterId, d: Delivery) { GetsSeats(st, counter, d) && Bookable(st, d.sale) }

  /** What one sale leaves, for every point at which the process can die. */
  lemma HandleOutcome(st: State, counter: CounterId, d: Delivery)
    requires d.sale.ref !in st.refs && d.sale.booking !in st.shop.bookings
    ensures var st2, b := Handle(st, counter, d).0, d.sale.booking; var row := st2.refs[d.sale.ref];
      && (IsTicketed(st2.shop, b) <==> GetsTicket(st, counter, d) && d.crash in {Never, AfterTicket, BeforeRecord})
      && (row.booking == Some(b) <==> GetsTicket(st, counter, d) && d.crash == Never && Usable(st.drawers, d.sale.shift))
      && (row.booking.Some? ==> row.booking == Some(b) && !row.rejected)
      && (row.rejected <==>
            && d.crash !in {AfterClaim, BeforeRecord}
            && (GetsSeats(st, counter, d) ==>
                  && d.crash !in {AfterSeats, AfterBooking}
                  && !(d.sale.total > 0 && PayKey(CASH, b) !in st.shop.payments
                       && (d.crash == AfterPayment
                           || (d.sale.total >= SERVICE_FEE && (d.crash == AfterTicket || Usable(st.drawers, d.sale.shift)))))))
      && st2.db == (if GetsSeats(st, counter, d) && d.crash != AfterClaim
                    then SellQuota(st.db, d.sale.hold, counter, d.sale.trip, d.sale.seats, d.sale.board, d.sale.drop, d.now).db else st.db)
      && (b in st2.shop.bookings <==> GetsSeats(st, counter, d) && d.crash !in {AfterClaim, AfterSeats})
      && (!GetsSeats(st, counter, d) || d.crash in {AfterClaim, AfterSeats} ==> st2.shop == st.shop)
      && st2.drawers == (if GetsTicket(st, counter, d) && d.crash in {Never, BeforeRecord}
                         then Draw(st.drawers, d.sale.shift, b, d.sale.total) else st.drawers)
  {
    SaleIsBookedIff(d.sale.total, d.sale.total, true);
    SettleCashSteps(st.shop, d.sale);
    hide SellQuota, CounterPostings, Journal, Issue;
  }

  /** The rows of a sale: the booking as it was queued, the payment over its total, and with the ticket one VALID row
      per seat and a journal over that total. */
  ghost predicate Wrote(shop: Shop, shop2: Shop, sale: Sale, booked: bool, paid: bool, ticketed: bool) {
    var b := sale.booking;
    && shop2.bookings == (if booked then shop.bookings[b := Booking(sale.hold, sale.seats, if ticketed then TICKETED else PAYMENT_PENDING, sale.total, 0, None)]
                          else shop.bookings)
    && shop2.payments == (if paid then shop.payments[PayKey(CASH, b) := Payment(b, sale.total)] else shop.payments)
    && shop2.refunds == shop.refunds
    && (!ticketed ==> shop2.tickets == shop.tickets && shop2.journals == shop.journals)
    && (ticketed ==>
          && (forall t :: t in shop2.tickets <==> t in shop.tickets || (t.booking == b && t.no in sale.seats))
          && (forall t :: t in shop2.tickets ==> shop2.tickets[t] == if t in shop.tickets then shop.tickets[t] else VALID)
          && |shop2.journals| == |shop.journals| + 1 && shop2.journals[..|shop.journals|] == shop.journals
          && var e := shop2.journals[|shop.journals|];
          && e == Entry(b, SALE, e.lines) && forall acc :: Net(e.lines, acc) == Payments.PaidEffect(Cash, sale.total, false, acc))
  }

  lemma CreatedRows(shop: Shop, sale: Sale)
    ensures Wrote(shop, shop, sale, false, false, false)
    ensures Wrote(shop, Create(shop, sale.booking, sale.hold, sale.seats, sale.total), sale, true, false, false)
  {
  }

  predicate CanPay(shop: Shop, sale: Sale) { sale.total > 0 && PayKey(CASH, sale.booking) !in shop.payments }

  lemma PaidRows(shop: Shop, sale: Sale)
    ensures Wrote(shop, Pay(Create(shop, sale.booking, sale.hold, sale.seats, sale.total), PayKey(CASH, sale.booking), Payment(sale.booking, sale.total)),
                  sale, true, CanPay(shop, sale), false)
    ensures CanPay(shop, sale) <==>
      Inserts(Create(shop, sale.booking, sale.hold, sale.seats, sale.total), PayKey(CASH, sale.booking), Payment(sale.booking, sale.total))
  {
  }

  lemma TicketedRows(shop: Shop, sale: Sale)
    requires CanPay(shop, sale) && sale.total >= 5000
    ensures var paid := Pay(Create(shop, sale.booking, sale.hold, sale.seats, sale.total), PayKey(CASH, sale.booking), Payment(sale.booking, sale.total));
      Wrote(shop, Finalise(paid, sale.booking, CounterPostings(sale.total, true)), sale, true, true, true)
  {
    var b, postings := sale.booking, CounterPostings(sale.total, true);
    var paid := Pay(Create(shop, b, sale.hold, sale.seats, sale.total), PayKey(CASH, b), Payment(b, sale.total));
    SaleIsBookedIff(sale.total, sale.total, true);
    PaidRows(shop, sale);
    Payments.PaidLists(sale.total);
    Payments.FinaliseRows(paid, b, postings);
    assert Journal(postings) == Some(Lines(postings));
    Overwritten(shop.bookings, b, paid.bookings[b], paid.bookings[b].(status := TICKETED));
    hide Finalise, Pay, Create, CounterPostings, Net, Lines, Journal, Payments.PaidEffect;
  }

  lemma SettledRows(shop: Shop, sale: Sale)
    ensures Wrote(shop, SettleCash(Create(shop, sale.booking, sale.hold, sale.seats, sale.total), sale.booking, sale.total),
                  sale, true, CanPay(shop, sale), CanPay(shop, sale) && sale.total >= 5000)
  {
    hide Wrote, Finalise, Pay, Create, Inserts, CounterPostings, Journal;
    var paid := Pay(Create(shop, sale.booking, sale.hold, sale.seats, sale.total), PayKey(CASH, sale.booking), Payment(sale.booking, sale.total));
    SaleIsBookedIff(sale.total, sale.total, true);
    PaidRows(shop, sale);
    CreatedRows(shop, sale);
    if sale.total < 5000 { NotFinalised(paid, sale.booking, CounterPostings(sale.total, true)); }
    else if CanPay(shop, sale) { TicketedRows(shop, sale); }
  }

  /** What one sale writes, for every point at which the process can die. */
  lemma SaleRows(st: State, counter: CounterId, d: Delivery)
    requires d.sale.ref !in st.refs
    ensures var booked := GetsSeats(st, counter, d) && d.crash !in {AfterClaim, AfterSeats};
      var paid := booked && d.crash != AfterBooking && d.sale.total > 0 && PayKey(CASH, d.sale.booking) !in st.shop.payments;
      Wrote(st.shop, Handle(st, counter, d).0.shop, d.sale, booked, paid, paid && d.crash != AfterPayment && d.sale.total >= 5000)
  {
    CreatedRows(st.shop, d.sale);
    PaidRows(st.shop, d.sale);
    SettledRows(st.shop, d.sale);
    hide SellQuota, SettleCash, Create, Pay, Inserts, IsTicketed, Draw, Usable, Wrote;
  }

  lemma NotFinalised(shop: Shop, b: BookingId, postings: seq<Posting>)
    requires Journal(postings) == None
    ensures Finalise(shop, b, postings) == shop
  {
  }

  /** A reference that was claimed before is answered with its row, and nothing happens. */
  lemma RepeatIsAnswered(st: State, counter: CounterId, d: Delivery)
    ensures d.sale.ref in st.refs ==> Handle(st, counter, d) == (st, AlreadyReplayed(st.refs[d.sale.ref]))
    ensures d.sale.ref !in st.refs ==> !Handle(st, counter, d).1.AlreadyReplayed?
  {
    hide Replay;
  }

  /** A delivery of another reference and another booking leaves the row and the booking alone. */
  lemma OthersLeaveIt(st: State, counter: CounterId, d: Delivery, ref: Ref, b: BookingId)
    requires ref in st.refs && (d.sale.ref != ref ==> d.sale.booking != b)
    ensures var st2 := Handle(st, counter, d).0;
      && ref in st2.refs && st2.refs[ref] == st.refs[ref]
      && (b in st2.shop.bookings <==> b in st.shop.bookings)
      && (b in st.shop.bookings ==> st2.shop.bookings[b] == st.shop.bookings[b])
  {
    hide SellQuota, CounterPostings, Journal, Issue;
  }

  lemma {:induction false} OthersLeaveItAlways(st: State, counter: CounterId, ds: seq<Delivery>, ref: Ref, b: BookingId)
    requires ref in st.refs && forall d :: d in ds ==> d.sale.ref == ref || d.sale.booking != b
    ensures var st2 := Flush(st, counter, ds);
      && ref in st2.refs && st2.refs[ref] == st.refs[ref]
      && (b in st2.shop.bookings <==> b in st.shop.bookings)
      && (b in st.shop.bookings ==> st2.shop.bookings[b] == st.shop.bookings[b])
  {
    hide Handle;
    if ds != [] {
      var init, last := ds[..|ds| - 1], ds[|ds| - 1];
      OthersLeaveItAlways(st, counter, init, ref, b);
      assert last in ds;
      OthersLeaveIt(Flush(st, counter, init), counter, last, ref, b);
    }
  }

  /** However often the queue is flushed afterwards, and whatever else is in it: the reference is recorded as
      REPLAYED and stands for a TICKETED booking exactly when the sale got its seats, its total covers the
      fee, the process did not die between claiming the reference and issuing the ticket, and the shift it
      names exists or the process died before it could record otherwise. The row names the booking only if
      it did not die at all. A sale is recorded as REJECTED although it is TICKETED exactly when nothing is
      wrong with it but its shift. */
  lemma RecordedSaleIff(st: State, counter: CounterId, d: Delivery, ds: seq<Delivery>)
    requires d.sale.ref !in st.refs && d.sale.booking !in st.shop.bookings
    requires forall e :: e in ds ==> e.sale.ref == d.sale.ref || e.sale.booking != d.sale.booking
    ensures var end := Flush(st, counter, [d] + ds);
      && d.sale.ref in end.refs
      && (!end.refs[d.sale.ref].rejected && IsTicketed(end.shop, d.sale.booking) <==>
            && GetsTicket(st, counter, d)
            && (d.crash in {AfterTicket, BeforeRecord} || (d.crash == Never && Usable(st.drawers, d.sale.shift))))
      && (end.refs[d.sale.ref].booking == Some(d.sale.booking) <==>
            GetsTicket(st, counter, d) && d.crash == Never && Usable(st.drawers, d.sale.shift))
      && (end.refs[d.sale.ref].rejected && IsTicketed(end.shop, d.sale.booking) <==>
            GetsTicket(st, counter, d) && d.crash == Never && !Usable(st.drawers, d.sale.shift))
  {
    assert [d][..0] == [] && Flush(st, counter, [d]) == Handle(st, counter, d).0;
    FlushAppends(st, counter, [d], ds);
    HandleOutcome(st, counter, d);
    HandleClaims(st, counter, d);
    OthersLeaveItAlways(Handle(st, counter, d).0, counter, ds, d.sale.ref, d.sale.booking);
    hide Handle, SellQuota, GetsSeats, Usable, IsTicketed;
  }

  /** A sale whose seats were taken is booked exactly when its total covers the service fee and the shift it names,
      if any, exists; otherwise it is reported rejected although the seats stay sold to it, and with an
      unusable shift even TICKETED, paid and posted. */
  lemma SeatsTakenButRejectedIff(st: State, counter: CounterId, sale: Sale, now: int)
    requires sale.ref !in st.refs && PayKey(CASH, sale.booking) !in st.shop.payments
    requires SellQuota(st.db, sale.hold, counter, sale.trip, sale.seats, sale.board, sale.drop, now).out == Ok
    ensures var st2, answer := Handle(st, counter, Delivery(sale, Never, now)).0, Handle(st, counter, Delivery(sale, Never, now)).1;
      && answer == (if sale.total >= SERVICE_FEE && Usable(st.drawers, sale.shift) then Booked(sale.booking) else Rejected)
      && st2.db == SellQuota(st.db, sale.hold, counter, sale.trip, sale.seats, sale.board, sale.drop, now).db
      && (IsTicketed(st2.shop, sale.booking) <==> sale.total >= SERVICE_FEE)
  {
    SaleIsBookedIff(sale.total, sale.total, true);
    SettleCashSteps(st.shop, sale);
    hide SellQuota, CounterPostings, Journal, Issue, SettleCash;
  }
}

module OfflineReplay {
  import opened Wrappers
  import opened Inventory
  import opened InventoryStore
  import opened Ledger
  import opened SagaTables
  import opened Commerce
  import opened CashDrawer
  import opened OfflineSales

  lemma ReplayIs(st: State, counter: CounterId, sale: Sale, now: int)
    ensures var r := SellQuota(st.db, sale.hold, counter, sale.trip, sale.seats, sale.board, sale.drop, now);
      var settled := SettleCash(Create(st.shop, sale.booking, sale.hold, sale.seats, sale.total), sale.booking, sale.total);
      Replay(st.db, st.shop, st.drawers, counter, sale, Never, now) ==
        if r.out != Ok then (st.db, st.shop, st.drawers, Failed)
        else if !IsTicketed(settled, sale.booking) then (r.db, settled, st.drawers, Failed)
        else (r.db, settled, Draw(st.drawers, sale.shift, sale.booking, sale.total), if Usable(st.drawers, sale.shift) then Replayed else Failed)
  {
    hide SellQuota, SettleCash, Create, IsTicketed, Draw, Usable;
  }

  class Terminal {
    const inv: Store
    const desk: Desk
    var shifts: map<ShiftId, Shift>
    var cash: seq<CashRow>
    var writedowns: seq<Writedown>
    var refs: map<Ref, Row>

    constructor (inv: Store, desk: Desk, drawers: Drawers)
      ensures this.inv == inv && this.desk == desk && refs == map[] && Drawer() == drawers
    {
      this.inv, this.desk, refs := inv, desk, map[];
      shifts, cash, writedowns := drawers.shifts, drawers.cash, drawers.writedowns;
    }

    function Drawer(): Drawers
      reads this
    {
      Drawers(shifts, cash, writedowns)
    }

    function Now(): State
      reads this, inv, desk
    {
      State(inv.Tables(), desk.Tables(), Drawer(), refs)
    }

    /** CreateBooking and SettleCounterSale. */
    method BookInCash(sale: Sale) returns (ok: bool)
      requires Inventory.ConfirmHold(inv.Tables(), sale.hold) == Refuse(inv.Tables(), Ok)
      modifies inv, desk
      ensures inv.Tables() == old(inv.Tables())
      ensures desk.Tables() == SettleCash(Create(old(desk.Tables()), sale.booking, sale.hold, sale.seats, sale.total), sale.booking, sale.total)
      ensures ok <==> IsTicketed(desk.Tables(), sale.booking)
    {
      SettleCashSteps(desk.Tables(), sale);
      hide SettleCash, Pay, Inserts, CounterPostings, Journal, SagaTables.Finalise, Inventory.ConfirmHold, Create;
      desk.CreateBooking(sale.booking, sale.hold, sale.seats, sale.total);
      var inserted := desk.InsertPayment(PayKey(CASH, sale.booking), Payment(sale.booking, sale.total));
      if !inserted { return false; }
      var out := inv.ConfirmHold(sale.hold);
      ok := desk.Finalise(sale.booking, CounterPostings(sale.total, true));
    }

    /** The cash row of a sale in cash; the statement fails for an id that is no shift. */
    method InsertCashRow(sale: Sale) returns (ok: bool)
      modifies this`cash
      ensures ok == Usable(old(Drawer()), sale.shift) && Drawer() == Draw(old(Drawer()), sale.shift, sale.booking, sale.total)
    {
      if sale.shift.Some? {
        if sale.shift.value !in shifts { return false; }
        cash := cash + [CashRow(sale.shift.value, Some(sale.booking), sale.total)];
      }
      return true;
    }

    method ReplayOne(counter: CounterId, sale: Sale, now: int) returns (ok: bool)
      modifies this`cash, inv, desk
      ensures (inv.Tables(), desk.Tables(), Drawer(), if ok then Replayed else Failed)
           == Replay(old(inv.Tables()), old(desk.Tables()), old(Drawer()), counter, sale, Never, now)
    {
      if SellQuota(inv.Tables(), sale.hold, counter, sale.trip, sale.seats, sale.board, sale.drop, now).out == Ok {
        SoldHoldIsConfirmed(inv.Tables(), sale.hold, counter, sale.trip, sale.seats, sale.board, sale.drop, now);
      }
      SellRefusal(inv.Tables(), sale.hold, counter, sale.trip, sale.seats, sale.board, sale.drop, now);
      ReplayIs(Now(), counter, sale, now);
      hide Replay, SellQuota, SettleCash, Inventory.ConfirmHold, Create, IsTicketed, Draw, Usable;
      var out := inv.SellQuota(sale.hold, counter, sale.trip, sale.seats, sale.board, sale.drop, now);
      if out != Ok { return false; }
      ok := BookInCash(sale);
      if ok { ok := InsertCashRow(sale); }
    }

    /** handleReplayOffline: claim, replay, record, answer; one queue entry after the other. */
    method ReplayQueue(counter: CounterId, queue: seq<Sale>, now: int) returns (results: seq<Answer>)
      modifies this`refs, this`cash, inv, desk
      ensures Now() == Flush(old(Now()), counter, Deliveries(queue, now))
      ensures results == Answers(old(Now()), counter, Deliveries(queue, now))
    {
      results := [];
      for i := 0 to |queue|
        invariant Now() == Flush(old(Now()), counter, Deliveries(queue, now)[..i])
        invariant results == Answers(old(Now()), counter, Deliveries(queue, now)[..i])
      {
        var ds := Deliveries(queue, now);
        assert ds[..i + 1][..i] == ds[..i];
        var sale := queue[i];
        hide Handle;
        var answer := ReplaySale(counter, sale, now);
        results := results + [answer];
      }
      assert Deliveries(queue, now)[..|queue|] == Deliveries(queue, now);
    }

    method ReplaySale(counter: CounterId, sale: Sale, now: int) returns (answer: Answer)
      modifies this`refs, this`cash, inv, desk
      ensures (Now(), answer) == Handle(old(Now()), counter, Delivery(sale, Never, now))
    {
      hide Replay;
      if sale.ref in refs { return AlreadyReplayed(refs[sale.ref]); }
      refs := refs[sale.ref := Row(false, None)];
      Overwritten(old(refs), sale.ref, Row(false, None), Row(false, Some(sale.booking)));
      Overwritten(old(refs), sale.ref, Row(false, None), Row(true, None));
      var ok := ReplayOne(counter, sale, now);
      refs := refs[sale.ref := if ok then Row(false, Some(sale.booking)) else Row(true, None)];
      return if ok then Booked(sale.booking) else Rejected;
    }
  }

  function Deliveries(queue: seq<Sale>, now: int): (ds: seq<Delivery>)
    ensures |ds| == |queue|
  {
    seq(|queue|, i requires 0 <= i < |queue| => Delivery(queue[i], Never, now))
  }
}
