/** A replacement bus (services/ops/ops/replacement.go).

  `Replace` opens the seats the new bus has, moves every ticketed passenger whose seat it lacks to
  the first free seat it has, reports those it cannot seat, and withdraws the seats that are gone.
 */
module RemapFacts {
  import opened Wrappers
  import opened Bits
  import opened Inventory
  import opened Ownership
  import opened Laws

  type BookingId = nat

  /** A booking that is CONFIRMED or TICKETED is `live`. */
  datatype Booking = Booking(trip: TripId, hold: HoldId, board: int, drop: int, live: bool, created: int)

  /** One passenger's place: the key of booking_seats, tickets and booking_passengers. */
  datatype Chair = Chair(booking: BookingId, no: SeatNo)

  datatype Row = Remapped(chair: Chair, newNo: SeatNo) | Conflict(chair: Chair)

  predicate Travels(bookings: map<BookingId, Booking>, b: BookingId, trip: TripId) {
    b in bookings && bookings[b].live && bookings[b].trip == trip
  }

  function Leg(k: Booking): Mask { SegmentMask(k.board, k.drop).GetOr(0) }

  /** The booking's hold is CONFIRMED on exactly its chairs, for its leg. */
  ghost predicate HoldsItsChairs(db: Db, booked: set<Chair>, b: BookingId, k: Booking) {
    && SegmentMask(k.board, k.drop).Some?
    && k.hold in db.holds && db.holds[k.hold].status == CONFIRMED && db.holds[k.hold].trip == k.trip
    && (forall no :: Chair(b, no) in booked <==> ItemKey(k.hold, no) in db.items)
    && (forall no :: ItemKey(k.hold, no) in db.items ==> db.items[ItemKey(k.hold, no)].mask == Leg(k))
  }

  /** Commerce and inventory agree on who sits where, and no two bookings share a hold. */
  ghost predicate Seated(db: Db, bookings: map<BookingId, Booking>, booked: set<Chair>, trip: TripId) {
    && (forall b :: Travels(bookings, b, trip) ==> HoldsItsChairs(db, booked, b, bookings[b]))
    && (forall b, c :: Travels(bookings, b, trip) && Travels(bookings, c, trip) && b != c ==> bookings[b].hold != bookings[c].hold)
  }

  /** The chair's booking owns the whole leg on that seat, and nobody else any part of it. */
  ghost predicate Sits(own: Owners, k: Booking, no: SeatNo) {
    forall n: nat :: k.board <= n < k.drop ==> own(Seat(k.trip, no), n) == Sold(k.hold)
  }

  lemma ChairIsOwned(db: Db, own: Owners, booked: set<Chair>, b: BookingId, k: Booking, no: SeatNo)
    requires Refines(db, own) && HoldsItsChairs(db, booked, b, k) && Chair(b, no) in booked
    ensures Sits(own, k, no)
  {
    JourneyBits(k.board, k.drop);
    forall n: nat | k.board <= n < k.drop ensures own(Seat(k.trip, no), n) == Sold(k.hold) {
      ItemOwns(db, own, ItemKey(k.hold, no), n);
    }
  }

  /** A seat that is free for the leg is no chair of the booking. */
  lemma FreeIsNoChair(db: Db, own: Owners, booked: set<Chair>, b: BookingId, k: Booking, no: SeatNo)
    requires Refines(db, own) && HoldsItsChairs(db, booked, b, k) && no in FreeFor(db, k.trip, Leg(k))
    ensures Chair(b, no) !in booked
  {
    InFreeFor(db, k.trip, Leg(k), no);
    JourneyBits(k.board, k.drop);
    if Chair(b, no) in booked {
      ChairIsOwned(db, own, booked, b, k, no);
      assert Shown(db, own, Seat(k.trip, no), k.board) && own(Seat(k.trip, no), k.board) == Sold(k.hold);
      FreeIsNobody(db, own, Seat(k.trip, no), k.board, Leg(k));
    }
  }

  /** Without interference, the move to a seat that FreeSeats listed always succeeds. */
  lemma MoveSucceeds(db: Db, own: Owners, booked: set<Chair>, b: BookingId, k: Booking, oldNo: SeatNo, newNo: SeatNo)
    requires Refines(db, own) && HoldsItsChairs(db, booked, b, k)
    requires Chair(b, oldNo) in booked && newNo in FreeFor(db, k.trip, Leg(k)) && oldNo != newNo
    ensures Reassign(db, k.hold, oldNo, newNo).out == Ok && Chair(b, newNo) !in booked
  {
    InFreeFor(db, k.trip, Leg(k), newNo);
    FreeIsNoChair(db, own, booked, b, k, newNo);
    var from := Seat(k.trip, oldNo);
    forall n: nat | Bit(Leg(k), n) ensures Bit(db.seats[from].sold, n) {
      ItemOwns(db, own, ItemKey(k.hold, oldNo), n);
      assert Shown(db, own, from, n);
    }
  }

  lemma MoveKeepsSeated(db: Db, bookings: map<BookingId, Booking>, booked: set<Chair>, b: BookingId, oldNo: SeatNo,
          newNo: SeatNo)
    requires b in bookings && Travels(bookings, b, bookings[b].trip) && Seated(db, bookings, booked, bookings[b].trip)
    requires oldNo != newNo && Reassign(db, bookings[b].hold, oldNo, newNo).out == Ok
    ensures Seated(Reassign(db, bookings[b].hold, oldNo, newNo).db, bookings, booked - {Chair(b, oldNo)} + {Chair(b, newNo)}, bookings[b].trip)
  {
    var db2, booked2 := Reassign(db, bookings[b].hold, oldNo, newNo).db, booked - {Chair(b, oldNo)} + {Chair(b, newNo)};
    forall c | Travels(bookings, c, bookings[b].trip) ensures HoldsItsChairs(db2, booked2, c, bookings[c]) {
      assert HoldsItsChairs(db, booked, c, bookings[c]);
    }
  }

  /** A move frees no seat but the old one. */
  lemma MoveFreesOnlyTheOld(db: Db, h: HoldId, oldNo: SeatNo, newNo: SeatNo, trip: TripId, m: Mask, no: SeatNo)
    requires oldNo != newNo && Reassign(db, h, oldNo, newNo).out == Ok && no != oldNo
    requires no in FreeFor(Reassign(db, h, oldNo, newNo).db, trip, m)
    ensures no in FreeFor(db, trip, m)
  {
    var db2 := Reassign(db, h, oldNo, newNo).db;
    InFreeFor(db, trip, m, no);
    InFreeFor(db2, trip, m, no);
    var r, r2 := db.seats[Seat(trip, no)], db2.seats[Seat(trip, no)];
    forall n: nat ensures !(Bit(Or(Or(r.hold, r.sold), r.blocked), n) && Bit(m, n)) {
      assert !(Bit(Or(Or(r2.hold, r2.sold), r2.blocked), n) && Bit(m, n));
    }
  }

  // ---- the state of the remap loop ----------------------------------------------------------

  /** What the report says about one passenger is true of the tables. */
  ghost predicate RowTrue(db: Db, bookings: map<BookingId, Booking>, booked: set<Chair>, onNewBus: set<SeatNo>,
          trip: TripId, row: Row) {
    && Travels(bookings, row.chair.booking, trip)
    && match row
       case Remapped(c, newNo) => newNo in onNewBus && Chair(c.booking, newNo) in booked
       case Conflict(c) => c in booked && c.no !in onNewBus && forall no :: no in onNewBus ==> no !in FreeFor(db, trip, Leg(bookings[c.booking]))
  }

  lemma MoveKeepsRow(db: Db, bookings: map<BookingId, Booking>, booked: set<Chair>, onNewBus: set<SeatNo>,
          trip: TripId, row: Row, c: Chair, newNo: SeatNo)
    requires RowTrue(db, bookings, booked, onNewBus, trip, row) && Travels(bookings, c.booking, trip)
    requires c.no !in onNewBus && newNo in onNewBus && row.chair != c && Reassign(db, bookings[c.booking].hold, c.no, newNo).out == Ok
    ensures RowTrue(Reassign(db, bookings[c.booking].hold, c.no, newNo).db, bookings, booked - {c} + {Chair(c.booking, newNo)}, onNewBus, trip, row)
  {
    var db2 := Reassign(db, bookings[c.booking].hold, c.no, newNo).db;
    if row.Conflict? {
      var m := Leg(bookings[row.chair.booking]);
      forall no | no in onNewBus ensures no !in FreeFor(db2, trip, m) {
        if no in FreeFor(db2, trip, m) { MoveFreesOnlyTheOld(db, bookings[c.booking].hold, c.no, newNo, trip, m, no); }
      }
    }
  }

  // ---- withdrawing ---------------------------------------------------------------------

  /** All segments of the trip are sold or blocked on this seat. */
  ghost predicate NotForSale(db: Db, trip: TripId, no: SeatNo) {
    trip in db.trips && Seat(trip, no) in db.seats ==>
      forall k: nat :: k < db.trips[trip] ==> Bit(db.seats[Seat(trip, no)].sold, k) || Bit(db.seats[Seat(trip, no)].blocked, k)
  }

  lemma Withdrawn(db: Db, trip: TripId, no: SeatNo)
    requires trip in db.trips
    ensures NotForSale(WithdrawSeat(db, trip, no).db, trip, no)
    ensures forall other :: NotForSale(db, trip, other) ==> NotForSale(WithdrawSeat(db, trip, no).db, trip, other)
  {
    AllBits(db.trips[trip]);
  }

  lemma WithdrawKeepsSeated(db: Db, bookings: map<BookingId, Booking>, booked: set<Chair>, trip: TripId, no: SeatNo)
    requires Seated(db, bookings, booked, trip)
    ensures Seated(WithdrawSeat(db, trip, no).db, bookings, booked, trip)
  {
    forall b | Travels(bookings, b, trip) ensures HoldsItsChairs(WithdrawSeat(db, trip, no).db, booked, b, bookings[b]) {
      assert HoldsItsChairs(db, booked, b, bookings[b]);
    }
  }

  lemma WithdrawKeepsRow(db: Db, bookings: map<BookingId, Booking>, booked: set<Chair>, onNewBus: set<SeatNo>,
          trip: TripId, row: Row, no: SeatNo)
    requires RowTrue(db, bookings, booked, onNewBus, trip, row) && no !in onNewBus
    ensures RowTrue(WithdrawSeat(db, trip, no).db, bookings, booked, onNewBus, trip, row)
  {
    if row.Conflict? {
      var m := Leg(bookings[row.chair.booking]);
      forall n | n in onNewBus ensures n !in FreeFor(WithdrawSeat(db, trip, no).db, trip, m) {
        InFreeFor(db, trip, m, n);
        InFreeFor(WithdrawSeat(db, trip, no).db, trip, m, n);
      }
    }
  }

  lemma AddKeepsSeated(db: Db, bookings: map<BookingId, Booking>, booked: set<Chair>, trip: TripId,
          specs: seq<SeatSpec>)
    requires Seated(db, bookings, booked, trip) && trip in db.trips
    ensures Seated(AddSeats(db, trip, specs).db, bookings, booked, trip)
  {
    forall b | Travels(bookings, b, trip) ensures HoldsItsChairs(AddSeats(db, trip, specs).db, booked, b, bookings[b]) {
      assert HoldsItsChairs(db, booked, b, bookings[b]);
    }
  }

  ghost predicate MovedBy(before: Db, h: HoldId, oldNo: SeatNo, newNo: SeatNo, after: Db) {
    Reassign(before, h, oldNo, newNo).out == Ok && after == Reassign(before, h, oldNo, newNo).db
  }

  lemma ChairMoveIsGuarded(db: Db, booked: set<Chair>, b: BookingId, k: Booking, oldNo: SeatNo, newNo: SeatNo)
    requires HoldsItsChairs(db, booked, b, k)
    ensures Guarded(db, OpReassign(k.hold, oldNo, newNo))
  {
  }

  lemma MoveSeatedAndOwned(db: Db, own: Owners, bookings: map<BookingId, Booking>, booked: set<Chair>, c: Chair,
          newNo: SeatNo, trip: TripId)
    requires Refines(db, own) && Seated(db, bookings, booked, trip) && Travels(bookings, c.booking, trip)
    requires c.no != newNo && Reassign(db, bookings[c.booking].hold, c.no, newNo).out == Ok
    ensures var h := bookings[c.booking].hold; var db2 := Reassign(db, h, c.no, newNo).db;
      Refines(db2, After(own, db, OpReassign(h, c.no, newNo))) && Seated(db2, bookings, booked - {c} + {Chair(c.booking, newNo)}, trip)
      && db2.trips == db.trips && db2.seats.Keys == db.seats.Keys
  {
    hide Refines, Guarded, After;
    assert HoldsItsChairs(db, booked, c.booking, bookings[c.booking]);
    ChairMoveIsGuarded(db, booked, c.booking, bookings[c.booking], c.no, newNo);
    StepRefines(db, own, OpReassign(bookings[c.booking].hold, c.no, newNo));
    MoveKeepsSeated(db, bookings, booked, c.booking, c.no, newNo);
    hide Seated, Free, Covers;
  }

  lemma MoveKeepsRows(db: Db, bookings: map<BookingId, Booking>, booked: set<Chair>, onNewBus: set<SeatNo>,
          trip: TripId, c: Chair, newNo: SeatNo)
    requires Travels(bookings, c.booking, trip) && c.no !in onNewBus && newNo in onNewBus
    requires Reassign(db, bookings[c.booking].hold, c.no, newNo).out == Ok
    ensures var db2 := Reassign(db, bookings[c.booking].hold, c.no, newNo).db;
      forall r: Row :: r.chair != c && RowTrue(db, bookings, booked, onNewBus, trip, r) ==>
        RowTrue(db2, bookings, booked - {c} + {Chair(c.booking, newNo)}, onNewBus, trip, r)
  {
    var db2 := Reassign(db, bookings[c.booking].hold, c.no, newNo).db;
    forall r: Row | r.chair != c && RowTrue(db, bookings, booked, onNewBus, trip, r)
      ensures RowTrue(db2, bookings, booked - {c} + {Chair(c.booking, newNo)}, onNewBus, trip, r)
    {
      MoveKeepsRow(db, bookings, booked, onNewBus, trip, r, c, newNo);
    }
  }

  lemma NewRowTrue(db: Db, bookings: map<BookingId, Booking>, booked: set<Chair>, onNewBus: set<SeatNo>, trip: TripId,
          c: Chair, newNo: SeatNo)
    requires Travels(bookings, c.booking, trip) && newNo in onNewBus && Chair(c.booking, newNo) in booked
    ensures RowTrue(db, bookings, booked, onNewBus, trip, Remapped(c, newNo))
  {
  }

  function Remaps(rows: seq<Row>): (n: nat)
    ensures n <= |rows|
  {
    if rows == [] then 0 else Remaps(rows[..|rows| - 1]) + if rows[|rows| - 1].Remapped? then 1 else 0
  }

  /** The chair of a passenger after the report. */
  function ChairAfter(row: Row): Chair {
    match row
    case Remapped(c, newNo) => Chair(c.booking, newNo)
    case Conflict(c) => c
  }

  // ---- the commerce rows that follow the passenger -------------------------------------------

  /** The keys of booking_seats, tickets and booking_passengers. */
  datatype Chairs = Chairs(booked: set<Chair>, tickets: set<Chair>, passengers: set<Chair>)

  function Follow(ch: Chairs, c: Chair, to: Chair): Chairs {
    Chairs(MoveKey(ch.booked, c, to), MoveKey(ch.tickets, c, to), MoveKey(ch.passengers, c, to))
  }

  function MoveKey(s: set<Chair>, c: Chair, to: Chair): set<Chair> { if c in s then s - {c} + {to} else s }

  /** Every ticket and every named passenger belongs to a booked chair. */
  predicate Keyed(ch: Chairs) { ch.tickets <= ch.booked && ch.passengers <= ch.booked }

  /** The report row of passenger `c`, and where the commerce rows went. */
  ghost predicate Reported(db: Db, bookings: map<BookingId, Booking>, ch0: Chairs, ch: Chairs, c: Chair,
          onNewBus: set<SeatNo>, trip: TripId, row: Row) {
    && row.chair == c && RowTrue(db, bookings, ch.booked, onNewBus, trip, row)
    && (c.no in onNewBus ==> row == Remapped(c, c.no))
    && ChairAfter(row) in ch.booked && (ChairAfter(row) == c || ChairAfter(row) !in ch0.booked)
    && (ChairAfter(row) in ch.tickets <==> c in ch0.tickets) && (ChairAfter(row) in ch.passengers <==> c in ch0.passengers)
  }

  ghost predicate Same(ch0: Chairs, ch: Chairs, c: Chair) {
    (c in ch.booked <==> c in ch0.booked) && (c in ch.tickets <==> c in ch0.tickets) && (c in ch.passengers <==> c in ch0.passengers)
  }

  /** The passengers worked off are reported, the others are where they were. */
  ghost predicate Progress(db: Db, bookings: map<BookingId, Booking>, ch0: Chairs, ch: Chairs, occupied: seq<Chair>,
          onNewBus: set<SeatNo>, trip: TripId, rows: seq<Row>) {
    && |rows| <= |occupied|
    && (forall j :: 0 <= j < |rows| ==> Reported(db, bookings, ch0, ch, occupied[j], onNewBus, trip, rows[j]))
    && (forall j :: |rows| <= j < |occupied| ==> Same(ch0, ch, occupied[j]))
    && (forall c: Chair :: !Travels(bookings, c.booking, trip) ==> Same(ch0, ch, c))
    && (forall c: Chair :: c.no in onNewBus && c in ch0.booked ==> c in ch.booked)
  }

  /** One turn of the loop, for the passenger `c`. */
  ghost predicate Turn(db: Db, db2: Db, bookings: map<BookingId, Booking>, ch: Chairs, ch2: Chairs, c: Chair,
          onNewBus: set<SeatNo>, trip: TripId, row: Row) {
    && row.chair == c && (c.no in onNewBus ==> row == Remapped(c, c.no))
    && (ChairAfter(row) == c || ChairAfter(row) !in ch.booked) && ch2 == Follow(ch, c, ChairAfter(row))
    && RowTrue(db2, bookings, ch2.booked, onNewBus, trip, row)
    && forall r: Row :: r.chair != c && RowTrue(db, bookings, ch.booked, onNewBus, trip, r) ==> RowTrue(db2, bookings, ch2.booked, onNewBus, trip, r)
  }

  lemma TurnKeepsReported(db: Db, db2: Db, bookings: map<BookingId, Booking>, ch0: Chairs, ch: Chairs, ch2: Chairs,
          c: Chair, onNewBus: set<SeatNo>, trip: TripId, row: Row, d: Chair, r: Row)
    requires Turn(db, db2, bookings, ch, ch2, c, onNewBus, trip, row) && Keyed(ch)
    requires Reported(db, bookings, ch0, ch, d, onNewBus, trip, r) && c != d && c in ch0.booked
    ensures Reported(db2, bookings, ch0, ch2, d, onNewBus, trip, r)
  {
  }

  lemma TurnReports(db: Db, db2: Db, bookings: map<BookingId, Booking>, ch0: Chairs, ch: Chairs, ch2: Chairs,
          c: Chair, onNewBus: set<SeatNo>, trip: TripId, row: Row)
    requires Turn(db, db2, bookings, ch, ch2, c, onNewBus, trip, row) && Keyed(ch) && c in ch.booked && Same(ch0, ch, c)
    requires ChairAfter(row) != c ==> ChairAfter(row) !in ch0.booked
    ensures Reported(db2, bookings, ch0, ch2, c, onNewBus, trip, row)
  {
  }

  lemma OneMoreTurn(db: Db, db2: Db, bookings: map<BookingId, Booking>, ch0: Chairs, ch: Chairs, ch2: Chairs,
          occupied: seq<Chair>, onNewBus: set<SeatNo>, trip: TripId, rows: seq<Row>, row: Row)
    requires Progress(db, bookings, ch0, ch, occupied, onNewBus, trip, rows) && |rows| < |occupied| && Keyed(ch)
    requires Distinct(occupied) && forall c :: c in occupied ==> c in ch0.booked && Travels(bookings, c.booking, trip)
    requires Turn(db, db2, bookings, ch, ch2, occupied[|rows|], onNewBus, trip, row)
    ensures Progress(db2, bookings, ch0, ch2, occupied, onNewBus, trip, rows + [row])
  {
    var n := |rows|;
    var c := occupied[n];
    assert c in occupied && c in ch.booked && Same(ch0, ch, c);
    TurnReports(db, db2, bookings, ch0, ch, ch2, c, onNewBus, trip, row);
    forall j | 0 <= j < n ensures Reported(db2, bookings, ch0, ch2, occupied[j], onNewBus, trip, rows[j]) {
      TurnKeepsReported(db, db2, bookings, ch0, ch, ch2, c, onNewBus, trip, row, occupied[j], rows[j]);
    }
    forall j | n + 1 <= j < |occupied| ensures Same(ch0, ch2, occupied[j]) {
      assert occupied[j] in occupied && Same(ch0, ch, occupied[j]);
    }
    forall d: Chair | !Travels(bookings, d.booking, trip) ensures Same(ch0, ch2, d) { assert Same(ch0, ch, d); }
  }

  lemma NextWaits(db: Db, bookings: map<BookingId, Booking>, ch0: Chairs, ch: Chairs, occupied: seq<Chair>,
          onNewBus: set<SeatNo>, trip: TripId, rows: seq<Row>)
    requires Progress(db, bookings, ch0, ch, occupied, onNewBus, trip, rows) && |rows| < |occupied|
    requires forall c :: c in occupied ==> c in ch0.booked && Travels(bookings, c.booking, trip)
    ensures occupied[|rows|] in ch.booked && Travels(bookings, occupied[|rows|].booking, trip)
  {
    assert occupied[|rows|] in occupied && Same(ch0, ch, occupied[|rows|]);
  }

  lemma FirstTurn(db: Db, bookings: map<BookingId, Booking>, ch: Chairs, occupied: seq<Chair>, onNewBus: set<SeatNo>,
          trip: TripId)
    ensures Progress(db, bookings, ch, ch, occupied, onNewBus, trip, [])
  {
  }

  lemma SeatsAdded(db: Db, own: Owners, bookings: map<BookingId, Booking>, booked: set<Chair>, trip: TripId,
          specs: seq<SeatSpec>)
    requires Refines(db, own) && Seated(db, bookings, booked, trip)
    ensures var r := AddSeats(db, trip, specs);
      && (trip in db.trips <==> r.out == Ok) && (r.out != Ok ==> r.db == db) && r.db.trips == db.trips
      && Refines(r.db, own) && Seated(r.db, bookings, booked, trip)
  {
    if trip in db.trips {
      StepRefines(db, own, OpAdd(trip, specs));
      AddKeepsSeated(db, bookings, booked, trip, specs);
    }
  }

  function WithdrawAll(db: Db, trip: TripId, nos: seq<SeatNo>): Db {
    if nos == [] then db else WithdrawSeat(WithdrawAll(db, trip, nos[..|nos| - 1]), trip, nos[|nos| - 1]).db
  }

  lemma WithdrawNext(db: Db, trip: TripId, nos: seq<SeatNo>, no: SeatNo)
    ensures WithdrawAll(db, trip, nos + [no]) == WithdrawSeat(WithdrawAll(db, trip, nos), trip, no).db
  {
    assert (nos + [no])[..|nos|] == nos;
  }

  /** The first `i` seats are worked off: those that the new bus does not sell are gone. */
  ghost predicate Scanned(all: seq<SeatNo>, i: nat, onNewBus: set<SeatNo>, gone: seq<SeatNo>, missing: set<SeatNo>) {
    i <= |all| && (forall no :: no in gone <==> no in all[..i] && no !in onNewBus) && forall no :: no in missing <==> no in gone
  }

  lemma ScanNext(all: seq<SeatNo>, i: nat, onNewBus: set<SeatNo>, gone: seq<SeatNo>, missing: set<SeatNo>)
    requires Ascending(all) && i < |all| && Scanned(all, i, onNewBus, gone, missing)
    ensures all[i] in onNewBus ==> Scanned(all, i + 1, onNewBus, gone, missing)
    ensures all[i] !in onNewBus ==> all[i] !in missing && Scanned(all, i + 1, onNewBus, gone + [all[i]], missing + {all[i]})
  {
    assert all[..i + 1] == all[..i] + [all[i]] && all[i] !in all[..i];
  }

  lemma WithdrawNone(db: Db, trip: TripId)
    ensures WithdrawAll(db, trip, []) == db
  {
  }

  lemma TripStays(db: Db, trip: TripId, no: SeatNo)
    ensures WithdrawSeat(db, trip, no).db.trips == db.trips
  {
  }

  lemma SeatNumbers(seats: map<Seat, SeatRow>, trip: TripId)
    ensures forall no :: no in (set s | s in seats && s.trip == trip :: s.no) <==> Seat(trip, no) in seats
  {
    forall no | Seat(trip, no) in seats ensures no in set s | s in seats && s.trip == trip :: s.no {
      assert Seat(trip, no).no == no;
    }
  }

  /** The seats of the trip that the new bus does not sell. */
  function Missing(seats: map<Seat, SeatRow>, trip: TripId, onNewBus: set<SeatNo>): set<SeatNo> {
    set s | s in seats && s.trip == trip && s.no !in onNewBus :: s.no
  }

  lemma MissingSeats(seats: map<Seat, SeatRow>, trip: TripId, onNewBus: set<SeatNo>)
    ensures forall no :: no in Missing(seats, trip, onNewBus) <==> Seat(trip, no) in seats && no !in onNewBus
  {
    forall no | Seat(trip, no) in seats && no !in onNewBus ensures no in Missing(seats, trip, onNewBus) {
      assert Seat(trip, no).no == no;
    }
  }

  lemma SameMissing(seats: map<Seat, SeatRow>, seats2: map<Seat, SeatRow>, trip: TripId, onNewBus: set<SeatNo>)
    requires forall s :: s in seats2 <==> s in seats
    ensures Missing(seats2, trip, onNewBus) == Missing(seats, trip, onNewBus)
  {
  }

  lemma ReportedStays(db: Db, db2: Db, bookings: map<BookingId, Booking>, ch0: Chairs, ch: Chairs,
          occupied: seq<Chair>, onNewBus: set<SeatNo>, trip: TripId, rows: seq<Row>)
    requires Progress(db, bookings, ch0, ch, occupied, onNewBus, trip, rows)
    requires forall row: Row :: RowTrue(db, bookings, ch.booked, onNewBus, trip, row) ==> RowTrue(db2, bookings, ch.booked, onNewBus, trip, row)
    ensures Progress(db2, bookings, ch0, ch, occupied, onNewBus, trip, rows)
  {
    forall j | 0 <= j < |rows| ensures Reported(db2, bookings, ch0, ch, occupied[j], onNewBus, trip, rows[j]) {
      assert Reported(db, bookings, ch0, ch, occupied[j], onNewBus, trip, rows[j]);
    }
  }

  lemma {:induction false} WithdrawAllKeeps(db: Db, own: Owners, bookings: map<BookingId, Booking>, ch0: Chairs,
          ch: Chairs, occupied: seq<Chair>, onNewBus: set<SeatNo>, trip: TripId, rows: seq<Row>, nos: seq<SeatNo>)
    requires Refines(db, own) && Seated(db, bookings, ch.booked, trip) && Progress(db, bookings, ch0, ch, occupied, onNewBus, trip, rows)
    requires forall no :: no in nos ==> no !in onNewBus
    ensures var db2 := WithdrawAll(db, trip, nos);
      Refines(db2, own) && Seated(db2, bookings, ch.booked, trip) && Progress(db2, bookings, ch0, ch, occupied, onNewBus, trip, rows)
  {
    hide Refines, Seated, Progress, RowTrue;
    if nos != [] {
      var init, no := nos[..|nos| - 1], nos[|nos| - 1];
      WithdrawAllKeeps(db, own, bookings, ch0, ch, occupied, onNewBus, trip, rows, init);
      var mid := WithdrawAll(db, trip, init);
      RefinesWithdraw(mid, own, trip, no);
      WithdrawKeepsSeated(mid, bookings, ch.booked, trip, no);
      forall row: Row | RowTrue(mid, bookings, ch.booked, onNewBus, trip, row)
        ensures RowTrue(WithdrawSeat(mid, trip, no).db, bookings, ch.booked, onNewBus, trip, row)
      {
        WithdrawKeepsRow(mid, bookings, ch.booked, onNewBus, trip, row, no);
      }
      ReportedStays(mid, WithdrawSeat(mid, trip, no).db, bookings, ch0, ch, occupied, onNewBus, trip, rows);
    }
  }

  lemma {:induction false} AllWithdrawn(db: Db, trip: TripId, nos: seq<SeatNo>)
    requires trip in db.trips
    ensures var db2 := WithdrawAll(db, trip, nos);
      && db2.trips == db.trips && (forall s :: s in db2.seats <==> s in db.seats)
      && forall no :: no in nos ==> NotForSale(db2, trip, no)
  {
    if nos != [] {
      var init := nos[..|nos| - 1];
      assert nos == init + [nos[|nos| - 1]];
      AllWithdrawn(db, trip, init);
      Withdrawn(WithdrawAll(db, trip, init), trip, nos[|nos| - 1]);
    }
  }

  lemma AllGone(db: Db, trip: TripId, onNewBus: set<SeatNo>, gone: seq<SeatNo>)
    requires trip in db.trips && forall no :: no in gone <==> Seat(trip, no) in db.seats && no !in onNewBus
    ensures forall no :: no !in onNewBus ==> NotForSale(WithdrawAll(db, trip, gone), trip, no)
  {
    AllWithdrawn(db, trip, gone);
  }

  /** The report lists every passenger of the trip exactly once, and what it says is true. */
  ghost predicate Report(db: Db, bookings: map<BookingId, Booking>, ch0: Chairs, ch: Chairs, onNewBus: set<SeatNo>,
          trip: TripId, rows: seq<Row>) {
    && (forall c: Chair :: c in ch0.booked && Travels(bookings, c.booking, trip) <==> exists j :: 0 <= j < |rows| && rows[j].chair == c)
    && (forall i, j :: 0 <= i < j < |rows| ==> rows[i].chair != rows[j].chair)
    && (forall j :: 0 <= j < |rows| ==> Reported(db, bookings, ch0, ch, rows[j].chair, onNewBus, trip, rows[j]))
    && (forall c: Chair :: !Travels(bookings, c.booking, trip) ==> Same(ch0, ch, c))
  }

  /** The report names exactly the ticketed passengers of the trip. */
  lemma ReportNames(db: Db, bookings: map<BookingId, Booking>, ch0: Chairs, ch: Chairs, onNewBus: set<SeatNo>,
          trip: TripId, rows: seq<Row>)
    requires Report(db, bookings, ch0, ch, onNewBus, trip, rows)
    ensures forall c :: (exists j :: 0 <= j < |rows| && rows[j].chair == c) <==>
              c in ch0.booked && c.booking in bookings && bookings[c.booking].live && bookings[c.booking].trip == trip
  {
    hide Reported, Same;
    forall c ensures c in ch0.booked && Travels(bookings, c.booking, trip) <==> exists j :: 0 <= j < |rows| && rows[j].chair == c {}
  }

  lemma Reports(db: Db, own: Owners, bookings: map<BookingId, Booking>, ch0: Chairs, ch: Chairs, occupied: seq<Chair>,
          onNewBus: set<SeatNo>, trip: TripId, rows: seq<Row>)
    requires Progress(db, bookings, ch0, ch, occupied, onNewBus, trip, rows) && |rows| == |occupied| && Distinct(occupied)
    requires forall c :: c in occupied <==> c in ch0.booked && Travels(bookings, c.booking, trip)
    requires Refines(db, own) && Seated(db, bookings, ch.booked, trip)
    ensures Report(db, bookings, ch0, ch, onNewBus, trip, rows)
    ensures forall row :: row in rows ==> row.chair.booking in bookings && Sits(own, bookings[row.chair.booking], ChairAfter(row).no)
  {
    forall row | row in rows ensures row.chair.booking in bookings && Sits(own, bookings[row.chair.booking], ChairAfter(row).no) {
      var j :| 0 <= j < |rows| && rows[j] == row;
      assert Reported(db, bookings, ch0, ch, occupied[j], onNewBus, trip, rows[j]);
      var b := row.chair.booking;
      assert HoldsItsChairs(db, ch.booked, b, bookings[b]);
      ChairIsOwned(db, own, ch.booked, b, bookings[b], ChairAfter(row).no);
    }
    forall c: Chair ensures c in ch0.booked && Travels(bookings, c.booking, trip) <==> exists j :: 0 <= j < |rows| && rows[j].chair == c {
      if c in occupied {
        var j :| 0 <= j < |occupied| && occupied[j] == c;
        assert Reported(db, bookings, ch0, ch, occupied[j], onNewBus, trip, rows[j]);
      }
      if j :| 0 <= j < |rows| && rows[j].chair == c {
        assert Reported(db, bookings, ch0, ch, occupied[j], onNewBus, trip, rows[j]) && occupied[j] in occupied;
      }
    }
    forall j | 0 <= j < |rows| ensures rows[j].chair == occupied[j] { assert Reported(db, bookings, ch0, ch, occupied[j], onNewBus, trip, rows[j]); }
  }

  /** The seats of the new layout that can carry a passenger. */
  function ForSale(specs: seq<SeatSpec>): set<SeatNo> { set st | st in specs && st.forSale :: st.no }

  lemma ForSaleIs(specs: seq<SeatSpec>)
    ensures forall no :: no in ForSale(specs) <==> exists st :: st in specs && st.forSale && st.no == no
  {
  }
}

module Replacement {
  import opened Wrappers
  import opened Bits
  import opened Inventory
  import opened InventoryStore
  import opened Ownership
  import opened RemapFacts

  type BusId = nat

  datatype Error = ErrSameBus | ErrInventory(out: Outcome)
  datatype Result = Failed(error: Error) | Done(added: nat, withdrawn: nat, remapped: nat, conflicts: nat, rows: seq<Row>)

  class Console {
    const inv: Store
    var buses: map<TripId, BusId>
    var bookings: map<BookingId, Booking>
    var booked: set<Chair>
    var tickets: set<Chair>
    var passengers: set<Chair>

    function Rows(): Chairs
      reads this
    {
      Chairs(booked, tickets, passengers)
    }

    constructor (inv: Store, buses: map<TripId, BusId>, bookings: map<BookingId, Booking>, ch: Chairs)
      ensures this.inv == inv && this.buses == buses && this.bookings == bookings && Rows() == ch
    {
      this.inv, this.buses, this.bookings := inv, buses, bookings;
      booked, tickets, passengers := ch.booked, ch.tickets, ch.passengers;
    }

    /** Tickets and passengers have a booked chair, and inventory agrees with commerce. */
    ghost predicate Consistent(trip: TripId)
      reads this, inv
    {
      Keyed(Rows()) && Seated(inv.Tables(), bookings, booked, trip)
    }

    /** ORDER BY created_at, seat_no. */
    predicate NoLater(c: Chair, d: Chair)
      reads this
      requires c.booking in bookings && d.booking in bookings
    {
      bookings[c.booking].created < bookings[d.booking].created
      || (bookings[c.booking].created == bookings[d.booking].created && c.no <= d.no)
    }

    method Oldest(chairs: set<Chair>) returns (first: Chair)
      requires chairs != {} && forall c :: c in chairs ==> c.booking in bookings
      ensures first in chairs && forall c :: c in chairs ==> NoLater(first, c)
    {
      first :| first in chairs;
      var rest := chairs - {first};
      while rest != {}
        invariant rest <= chairs && first in chairs && forall c :: c in chairs && c !in rest ==> NoLater(first, c)
        decreases rest
      {
        var c :| c in rest;
        if !NoLater(first, c) {
          assert forall d :: d in chairs && d !in rest ==> NoLater(first, d) ==> NoLater(c, d);
          first := c;
        }
        rest := rest - {c};
      }
    }

    /** The passengers of the trip, each once, the oldest booking first. */
    method Occupied(trip: TripId) returns (occupied: seq<Chair>)
      ensures Distinct(occupied) && forall c :: c in occupied <==> c in booked && Travels(bookings, c.booking, trip)
      ensures forall c :: c in occupied <==> c in booked && c.booking in bookings && bookings[c.booking].live && bookings[c.booking].trip == trip
      ensures forall i, j :: 0 <= i < j < |occupied| ==>
        && occupied[i].booking in bookings && occupied[j].booking in bookings
        && var a, b := bookings[occupied[i].booking].created, bookings[occupied[j].booking].created;
           a < b || (a == b && occupied[i].no <= occupied[j].no)
    {
      occupied := [];
      var rest := set c | c in booked && Travels(bookings, c.booking, trip);
      while rest != {}
        invariant Distinct(occupied) && forall c :: c in occupied ==> c !in rest
        invariant forall c :: c in occupied || c in rest <==> c in booked && Travels(bookings, c.booking, trip)
        invariant forall i, j :: 0 <= i < j < |occupied| ==>
          occupied[i].booking in bookings && occupied[j].booking in bookings && NoLater(occupied[i], occupied[j])
        invariant forall c, d :: c in occupied && d in rest ==> c.booking in bookings && d.booking in bookings && NoLater(c, d)
        decreases rest
      {
        var c := Oldest(rest);
        occupied, rest := occupied + [c], rest - {c};
      }
    }

    /** The UPDATEs of booking_seats, tickets and booking_passengers. */
    method MoveChair(c: Chair, newNo: SeatNo)
      modifies this`booked, this`tickets, this`passengers
      ensures Rows() == Follow(old(Rows()), c, Chair(c.booking, newNo))
    {
      if c in booked { booked := booked - {c} + {Chair(c.booking, newNo)}; }
      if c in tickets { tickets := tickets - {c} + {Chair(c.booking, newNo)}; }
      if c in passengers { passengers := passengers - {c} + {Chair(c.booking, newNo)}; }
    }

    /** The seats FreeSeats offers, tried in order until a Reassign succeeds. */
    method TryCandidates(c: Chair, onNewBus: set<SeatNo>, ghost own: Owners) returns (moved: Option<SeatNo>)
      requires c.booking in bookings && Travels(bookings, c.booking, bookings[c.booking].trip) && c in booked && c.no !in onNewBus
      requires Refines(inv.Tables(), own) && Seated(inv.Tables(), bookings, booked, bookings[c.booking].trip)
      modifies inv
      ensures moved == None ==> inv.Tables() == old(inv.Tables())
      ensures moved == None ==> forall no :: no in onNewBus ==> no !in FreeFor(inv.Tables(), bookings[c.booking].trip, Leg(bookings[c.booking]))
      ensures moved.Some? ==> moved.value in onNewBus && Chair(c.booking, moved.value) !in booked
      ensures moved.Some? ==> forall no :: no in onNewBus && no in FreeFor(old(inv.Tables()), bookings[c.booking].trip, Leg(bookings[c.booking])) ==>
        inv.place(Seat(bookings[c.booking].trip, moved.value)) <= inv.place(Seat(bookings[c.booking].trip, no))
      ensures moved.Some? ==> MovedBy(old(inv.Tables()), bookings[c.booking].hold, c.no, moved.value, inv.Tables())
    {
      var k := bookings[c.booking];
      assert HoldsItsChairs(inv.Tables(), booked, c.booking, k);
      var free := inv.FreeSeats(k.trip, k.board, k.drop);
      for i := 0 to |free.value|
        invariant inv.Tables() == old(inv.Tables()) && forall j :: 0 <= j < i ==> free.value[j] !in onNewBus
      {
        if free.value[i] in onNewBus {
          MoveSucceeds(inv.Tables(), own, booked, c.booking, k, c.no, free.value[i]);
          var out := inv.Reassign(k.hold, c.no, free.value[i]);
          if out == Ok { return Some(free.value[i]); }
        }
      }
      return None;
    }

    /** One turn of the loop over the passengers. */
    method SeatPassenger(c: Chair, onNewBus: set<SeatNo>, trip: TripId, ghost own: Owners) returns (row: Row,
            ghost own2: Owners)
      requires Travels(bookings, c.booking, trip) && c in booked && Refines(inv.Tables(), own) && Consistent(trip)
      modifies this`booked, this`tickets, this`passengers, inv
      ensures Turn(old(inv.Tables()), inv.Tables(), bookings, old(Rows()), Rows(), c, onNewBus, trip, row)
      ensures Refines(inv.Tables(), own2) && Consistent(trip)
      ensures inv.trips == old(inv.trips) && inv.seats.Keys == old(inv.seats.Keys)
    {
      hide Refines, Seated, Free;
      own2 := own;
      if c.no in onNewBus { return Remapped(c, c.no), own2; }
      var moved := TryCandidates(c, onNewBus, own);
      if moved == None { return Conflict(c), own2; }
      ghost var before, hold, newNo := old(inv.Tables()), bookings[c.booking].hold, moved.value;
      MoveSeatedAndOwned(before, own, bookings, booked, c, newNo, trip);
      own2 := After(own, before, OpReassign(hold, c.no, newNo));
      MoveKeepsRows(before, bookings, booked, onNewBus, trip, c, newNo);
      hide Refines, Seated, RowTrue;
      MoveChair(c, moved.value);
      NewRowTrue(inv.Tables(), bookings, booked, onNewBus, trip, c, newNo);
      return Remapped(c, moved.value), own2;
    }

    /** The loop over the passengers. */
    method RemapAll(occupied: seq<Chair>, onNewBus: set<SeatNo>, trip: TripId, ghost own: Owners)
      returns (rows: seq<Row>, remapped: nat, conflicts: nat, ghost own2: Owners)
      requires Refines(inv.Tables(), own) && Consistent(trip) && Distinct(occupied)
      requires forall c :: c in occupied ==> c in booked && Travels(bookings, c.booking, trip)
      modifies this`booked, this`tickets, this`passengers, inv
      ensures |rows| == |occupied| && Progress(inv.Tables(), bookings, old(Rows()), Rows(), occupied, onNewBus, trip, rows)
      ensures remapped == Remaps(rows) && conflicts == |rows| - Remaps(rows)
      ensures Refines(inv.Tables(), own2) && Consistent(trip)
      ensures inv.trips == old(inv.trips) && inv.seats.Keys == old(inv.seats.Keys)
    {
      rows, remapped, conflicts, own2 := [], 0, 0, own;
      FirstTurn(inv.Tables(), bookings, Rows(), occupied, onNewBus, trip);
      for i := 0 to |occupied|
        invariant |rows| == i && remapped == Remaps(rows) && conflicts == i - Remaps(rows)
        invariant Progress(inv.Tables(), bookings, old(Rows()), Rows(), occupied, onNewBus, trip, rows)
        invariant Refines(inv.Tables(), own2) && Consistent(trip)
        invariant inv.trips == old(inv.trips) && inv.seats.Keys == old(inv.seats.Keys)
      {
        hide Refines, Seated, Progress, Turn, Travels, Keyed, Remaps;
        NextWaits(inv.Tables(), bookings, old(Rows()), Rows(), occupied, onNewBus, trip, rows);
        ghost var db, ch := inv.Tables(), Rows();
        var row;
        row, own2 := SeatPassenger(occupied[i], onNewBus, trip, own2);
        OneMoreTurn(db, inv.Tables(), bookings, old(Rows()), ch, Rows(), occupied, onNewBus, trip, rows, row);
        rows := rows + [row];
        if row.Remapped? { remapped := remapped + 1; } else { conflicts := conflicts + 1; }
      }
    }

    /** withdrawMissing: every seat of the trip that the new bus cannot sell. */
    method WithdrawMissing(trip: TripId, onNewBus: set<SeatNo>) returns (n: nat, ghost gone: seq<SeatNo>)
      requires trip in inv.trips
      modifies inv
      ensures inv.Tables() == WithdrawAll(old(inv.Tables()), trip, gone) && n == |Missing(old(inv.seats), trip, onNewBus)|
      ensures forall no :: no in gone <==> Seat(trip, no) in old(inv.seats) && no !in onNewBus
    {
      hide WithdrawAll, Inventory.WithdrawSeat, Missing, Withdraw, Ascending;
      var all := InOrder(set s | s in inv.seats && s.trip == trip :: s.no);
      SeatNumbers(inv.seats, trip);
      WithdrawNone(inv.Tables(), trip);
      n, gone := 0, [];
      ghost var missing: set<SeatNo> := {};
      for i := 0 to |all|
        invariant inv.Tables() == WithdrawAll(old(inv.Tables()), trip, gone) && trip in inv.trips && n == |missing|
        invariant Scanned(all, i, onNewBus, gone, missing)
      {
        ScanNext(all, i, onNewBus, gone, missing);
        if all[i] !in onNewBus {
          TripStays(inv.Tables(), trip, all[i]);
          WithdrawNext(old(inv.Tables()), trip, gone, all[i]);
          var out := inv.WithdrawSeat(trip, all[i]);
          n, gone, missing := n + 1, gone + [all[i]], missing + {all[i]};
        }
      }
      assert all[..|all|] == all;
      assert forall no :: no in missing <==> no in gone;
      MissingSeats(old(inv.seats), trip, onNewBus);
      assert missing == Missing(old(inv.seats), trip, onNewBus);
    }

    /** The loop over the passengers, then the withdrawals. */
    method RemapAndWithdraw(trip: TripId, onNewBus: set<SeatNo>, ghost own: Owners)
      returns (rows: seq<Row>, remapped: nat, conflicts: nat, withdrawn: nat, ghost own2: Owners)
      requires Refines(inv.Tables(), own) && Consistent(trip) && trip in inv.trips
      modifies this`booked, this`tickets, this`passengers, inv
      ensures Refines(inv.Tables(), own2) && Consistent(trip) && inv.seats.Keys == old(inv.seats.Keys)
      ensures Report(inv.Tables(), bookings, old(Rows()), Rows(), onNewBus, trip, rows)
      ensures remapped == Remaps(rows) && conflicts == |rows| - Remaps(rows)
      ensures forall row :: row in rows ==>
                row.chair.booking in bookings && Sits(own2, bookings[row.chair.booking], ChairAfter(row).no)
      ensures forall no :: no !in onNewBus ==> NotForSale(inv.Tables(), trip, no)
      ensures withdrawn == |Missing(inv.seats, trip, onNewBus)|
    {
      hide Refines, Seated, Progress, Report, NotForSale, Sits, Missing;
      var occupied := Occupied(trip);
      rows, remapped, conflicts, own2 := RemapAll(occupied, onNewBus, trip, own);
      ghost var seated := inv.Tables();
      ghost var gone;
      withdrawn, gone := WithdrawMissing(trip, onNewBus);
      AllWithdrawn(seated, trip, gone);
      SameMissing(seated.seats, inv.seats, trip, onNewBus);
      WithdrawAllKeeps(seated, own2, bookings, old(Rows()), Rows(), occupied, onNewBus, trip, rows, gone);
      AllGone(seated, trip, onNewBus, gone);
      Reports(inv.Tables(), own2, bookings, old(Rows()), Rows(), occupied, onNewBus, trip, rows);
    }

    method Replace(trip: TripId, toBus: BusId, specs: seq<SeatSpec>, ghost own: Owners)
      returns (r: Result, ghost own2: Owners)
      requires Refines(inv.Tables(), own) && Consistent(trip)
      modifies this, inv
      ensures bookings == old(bookings) && Refines(inv.Tables(), own2) && Consistent(trip)
      ensures forall no :: no in ForSale(specs) <==> exists st :: st in specs && st.forSale && st.no == no
      ensures r.Failed? <==> trip !in old(buses) || old(buses)[trip] == toBus || trip !in old(inv.trips)
      ensures r.Failed? ==> inv.Tables() == old(inv.Tables()) && Rows() == old(Rows()) && buses == old(buses)
      ensures r.Done? ==> Report(inv.Tables(), bookings, old(Rows()), Rows(), ForSale(specs), trip, r.rows)
      ensures r.Done? ==> forall c :: (exists j :: 0 <= j < |r.rows| && r.rows[j].chair == c) <==>
                c in old(booked) && c.booking in bookings && bookings[c.booking].live && bookings[c.booking].trip == trip
      ensures r.Done? ==> r.remapped == Remaps(r.rows) && r.conflicts == |r.rows| - Remaps(r.rows)
      ensures r.Done? ==> forall row :: row in r.rows ==>
                row.chair.booking in bookings && Sits(own2, bookings[row.chair.booking], ChairAfter(row).no)
      ensures r.Done? ==> forall no :: no !in ForSale(specs) ==> NotForSale(inv.Tables(), trip, no)
      ensures r.Done? ==> buses == old(buses)[trip := toBus]
      ensures r.Done? ==> |inv.seats.Keys| == |old(inv.seats).Keys| + r.added
      ensures r.Done? ==> r.withdrawn == |Missing(inv.seats, trip, ForSale(specs))|
    {
      hide Refines, Seated, Report, NotForSale, Sits, Missing, Step;
      own2 := own;
      ForSaleIs(specs);
      if trip !in buses { return Failed(ErrInventory(ErrNoRows)), own2; }
      if buses[trip] == toBus { return Failed(ErrSameBus), own2; }
      var onNewBus := ForSale(specs);
      SeatsAdded(inv.Tables(), own, bookings, booked, trip, specs);
      var out, added := inv.AddSeats(trip, specs);
      if out != Ok { return Failed(ErrInventory(out)), own2; }
      var rows, remapped, conflicts, withdrawn;
      rows, remapped, conflicts, withdrawn, own2 := RemapAndWithdraw(trip, onNewBus, own);
      ReportNames(inv.Tables(), bookings, old(Rows()), Rows(), onNewBus, trip, rows);
      buses := buses[trip := toBus];
      return Done(added, withdrawn, remapped, conflicts, rows), own2;
    }
  }
}
