/** The tables of the inventory service and the meaning of its transactions.

  Each function below gives the whole effect of one committed (or rolled back) transaction
  of services/inventory/inventory: the new tables, the outcome and the events it appends.
  They are declarative: no loop, one guard for the whole request. `Store` proves that the
  statement-by-statement transactions compute exactly these.
 */
module Inventory {
  import opened Wrappers
  import opened Bits

  // Identifiers are opaque. Seat numbers also carry the one total order that both
  // sort.Strings and ORDER BY seat_no use.
  type TripId = nat
  type SeatNo = nat
  type HoldId = nat
  type CounterId = nat

  datatype Seat = Seat(trip: TripId, no: SeatNo)
  datatype SeatRow = SeatRow(hold: Mask, sold: Mask, blocked: Mask)
  datatype Status = HELD | CONFIRMED | RELEASED | EXPIRED
  predicate Settled(status: Status) { status.RELEASED? || status.EXPIRED? }
  datatype HoldRow = HoldRow(trip: TripId, status: Status, expires: int)
  datatype ItemKey = ItemKey(hold: HoldId, no: SeatNo)
  datatype ItemRow = ItemRow(trip: TripId, mask: Mask)
  datatype QuotaKey = QuotaKey(counter: CounterId, trip: TripId, no: SeatNo, mask: Mask)
  datatype QuotaStatus = QuotaAllocated | QuotaSold | QuotaReleased

  /** trip_inventory (segment counts), trip_seats, seat_holds, seat_hold_items, quota_items. */
  datatype Db = Db(
    trips: map<TripId, nat>,
    seats: map<Seat, SeatRow>,
    holds: map<HoldId, HoldRow>,
    items: map<ItemKey, ItemRow>,
    quota: map<QuotaKey, QuotaStatus>)

  const EMPTY := Db(map[], map[], map[], map[], map[])

  datatype EventKind =
    | SEAT_HELD | SEAT_RELEASED | SEAT_BOOKED | SEAT_BLOCKED | HOLD_EXPIRED | QUOTA_ALLOCATED | QUOTA_RELEASED
  datatype Event = Event(kind: EventKind, seat: Seat, mask: Mask)

  datatype Outcome =
    | Ok | ErrBadSegments | ErrNoSeats | ErrSeatUnavailable | ErrHoldNotFound | ErrHoldNotActive | ErrHoldLost
    | ErrNotInQuota | ErrQuotaTooLarge | ErrNotSold | ErrNoRows | ErrDuplicateKey

  datatype Reply = Reply(db: Db, out: Outcome, log: seq<Event>)

  function Refuse(db: Db, out: Outcome): Reply { Reply(db, out, []) }

  // ---- the conditional UPDATE of one seat row -------------------------------------

  datatype Move = TakeHold | HoldToSold | DropHold | Unsell | Block | Unblock | BlockToSold | TakeSold

  /** The WHERE clause. */
  predicate Ready(mv: Move, r: SeatRow, m: Mask) {
    match mv
    case TakeHold => Free(r, m)
    case Block => Free(r, m)
    case TakeSold => Free(r, m)
    case HoldToSold => Covers(r.hold, m)
    case BlockToSold => Covers(r.blocked, m)
    case _ => true
  }

  predicate Free(r: SeatRow, m: Mask) { Disjoint(Or(Or(r.hold, r.sold), r.blocked), m) }

  /** The SET clause. */
  function Apply(mv: Move, r: SeatRow, m: Mask): SeatRow {
    match mv
    case TakeHold => r.(hold := Or(r.hold, m))
    case HoldToSold => r.(sold := Or(r.sold, m), hold := AndNot(r.hold, m))
    case DropHold => r.(hold := AndNot(r.hold, m))
    case Unsell => r.(sold := AndNot(r.sold, m))
    case Block => r.(blocked := Or(r.blocked, m))
    case Unblock => r.(blocked := AndNot(r.blocked, m))
    case BlockToSold => r.(sold := Or(r.sold, m), blocked := AndNot(r.blocked, m))
    case TakeSold => r.(sold := Or(r.sold, m))
  }

  /** The same move on several seats of one trip. */
  function Touch(seats: map<Seat, SeatRow>, trip: TripId, ms: map<SeatNo, Mask>, mv: Move): map<Seat, SeatRow> {
    map s | s in seats ::
      if s.trip == trip && s.no in ms then Apply(mv, seats[s], ms[s.no]) else seats[s]
  }

  predicate AllReady(seats: map<Seat, SeatRow>, trip: TripId, ms: map<SeatNo, Mask>, mv: Move) {
    forall no :: no in ms ==> Seat(trip, no) in seats && Ready(mv, seats[Seat(trip, no)], ms[no])
  }

  predicate Distinct<T(==)>(s: seq<T>) {
    forall i, j :: 0 <= i < j < |s| ==> s[i] != s[j]
  }

  /** One mask on every requested seat. */
  function Each(seats: seq<SeatNo>, mask: Mask): map<SeatNo, Mask> { map no | no in seats :: mask }

  function ItemsOf(db: Db, h: HoldId): (r: map<SeatNo, Mask>)
    ensures forall no :: no in r <==> ItemKey(h, no) in db.items
    ensures forall no :: no in r ==> r[no] == db.items[ItemKey(h, no)].mask
  {
    map i | i in db.items && i.hold == h :: i.no := db.items[i].mask
  }

  // ---- ordered seat lists and the events they produce ------------------------------

  predicate Ascending(s: seq<SeatNo>) {
    forall i, j :: 0 <= i < j < |s| ==> s[i] < s[j]
  }

  /** ORDER BY seat_no. */
  function InOrder(nos: set<SeatNo>): (r: seq<SeatNo>)
    ensures Ascending(r) && |r| == |nos| && forall no :: no in r <==> no in nos
  {
    if nos == {} then []
    else
      var m := Greatest(nos);
      InOrder(nos - {m}) + [m]
  }

  function Greatest(nos: set<SeatNo>): (m: SeatNo)
    requires nos != {}
    ensures m in nos && forall no :: no in nos ==> no <= m
  {
    HasGreatest(nos);
    var m :| m in nos && forall no :: no in nos ==> no <= m;
    m
  }

  lemma {:induction false} HasGreatest(nos: set<SeatNo>)
    requires nos != {}
    ensures exists m :: m in nos && forall no :: no in nos ==> no <= m
  {
    var x :| x in nos;
    if nos - {x} != {} {
      HasGreatest(nos - {x});
      var m :| m in nos - {x} && forall no :: no in nos - {x} ==> no <= m;
      var top := if m < x then x else m;
      assert top in nos && forall no :: no in nos ==> no == x || no in nos - {x};
    } else {
      assert nos == {x};
    }
  }

  function Batch(kind: EventKind, trip: TripId, nos: seq<SeatNo>, ms: map<SeatNo, Mask>): seq<Event>
    requires forall no :: no in nos ==> no in ms
  {
    seq(|nos|, i requires 0 <= i < |nos| => Event(kind, Seat(trip, nos[i]), ms[nos[i]]))
  }

  function SeatEvents(kind: EventKind, trip: TripId, ms: map<SeatNo, Mask>): seq<Event> {
    Batch(kind, trip, InOrder(ms.Keys), ms)
  }

  // ---- store.go ---------------------------------------------------------------

  function AcquireHold(db: Db, h: HoldId, trip: TripId, seats: seq<SeatNo>, board: int, drop: int,
          expires: int): Reply {
    var sm := SegmentMask(board, drop);
    if sm == None then Refuse(db, ErrBadSegments)
    else if seats == [] then Refuse(db, ErrNoSeats)
    else
      var ms := Each(seats, sm.value);
      if !Distinct(seats) || !AllReady(db.seats, trip, ms, TakeHold) then Refuse(db, ErrSeatUnavailable)
      else if h in db.holds then Refuse(db, ErrDuplicateKey)
      else Reply(Acquired(db, h, trip, ms, expires), Ok, SeatEvents(SEAT_HELD, trip, ms))
  }

  function Acquired(db: Db, h: HoldId, trip: TripId, ms: map<SeatNo, Mask>, expires: int): Db {
    db.(seats := Touch(db.seats, trip, ms, TakeHold),
        holds := db.holds[h := HoldRow(trip, HELD, expires)],
        items := db.items + NewItems(h, trip, ms))
  }

  function NewItems(h: HoldId, trip: TripId, ms: map<SeatNo, Mask>): (r: map<ItemKey, ItemRow>)
    ensures forall i :: i in r <==> i.hold == h && i.no in ms
    ensures forall i :: i in r ==> r[i] == ItemRow(trip, ms[i.no])
  {
    map no | no in ms :: ItemKey(h, no) := ItemRow(trip, ms[no])
  }

  function Settle(db: Db, h: HoldId, mv: Move, status: Status): Db
    requires h in db.holds
  {
    db.(seats := Touch(db.seats, db.holds[h].trip, ItemsOf(db, h), mv),
        holds := db.holds[h := db.holds[h].(status := status)])
  }

  function ConfirmHold(db: Db, h: HoldId): Reply {
    if h !in db.holds then Refuse(db, ErrHoldNotFound)
    else match db.holds[h].status
      case CONFIRMED => Refuse(db, Ok)
      case HELD =>
        var trip := db.holds[h].trip;
        if !AllReady(db.seats, trip, ItemsOf(db, h), HoldToSold) then Refuse(db, ErrHoldLost)
        else Reply(Settle(db, h, HoldToSold, CONFIRMED), Ok, SeatEvents(SEAT_BOOKED, trip, ItemsOf(db, h)))
      case _ => Refuse(db, ErrHoldNotActive)
  }

  /** releaseBits, for a hold whose row is locked and HELD. */
  function ReleaseBits(db: Db, h: HoldId, expired: bool): Reply
    requires h in db.holds
  {
    Reply(Settle(db, h, DropHold, if expired then EXPIRED else RELEASED), Ok,
          SeatEvents(if expired then HOLD_EXPIRED else SEAT_RELEASED, db.holds[h].trip, ItemsOf(db, h)))
  }

  function ReleaseHold(db: Db, h: HoldId, expired: bool): Reply {
    if h !in db.holds then Refuse(db, ErrHoldNotFound)
    else if db.holds[h].status != HELD then Refuse(db, Ok)
    else ReleaseBits(db, h, expired)
  }

  function ReleaseConfirmed(db: Db, h: HoldId): Reply {
    if h !in db.holds then Refuse(db, ErrHoldNotFound)
    else if db.holds[h].status != CONFIRMED then Refuse(db, Ok)
    else Reply(Settle(db, h, Unsell, RELEASED), Ok, SeatEvents(SEAT_RELEASED, db.holds[h].trip, ItemsOf(db, h)))
  }

  /** A hold the sweeper may pick: HELD and past its deadline. */
  predicate Due(db: Db, h: HoldId, now: int) {
    h in db.holds && db.holds[h].status == HELD && db.holds[h].expires < now
  }

  predicate Sweepable(db: Db, dues: seq<HoldId>, now: int) {
    Distinct(dues) && forall h :: h in dues ==> Due(db, h, now)
  }

  /** SweepExpired, once the due rows are selected and locked. */
  function Sweep(db: Db, dues: seq<HoldId>): (r: Reply)
    requires forall h :: h in dues ==> h in db.holds
    ensures r.db.holds.Keys == db.holds.Keys
  {
    if dues == [] then Refuse(db, Ok)
    else
      var first := Sweep(db, dues[..|dues| - 1]);
      var last := ReleaseBits(first.db, dues[|dues| - 1], true);
      Reply(last.db, Ok, first.log + last.log)
  }

  lemma {:induction false} SweepHolds(db: Db, dues: seq<HoldId>, h: HoldId)
    requires (forall d :: d in dues ==> d in db.holds) && h in db.holds
    ensures Sweep(db, dues).db.holds[h] == if h in dues then db.holds[h].(status := EXPIRED) else db.holds[h]
  {
    if dues != [] {
      assert dues == dues[..|dues| - 1] + [dues[|dues| - 1]];
      SweepHolds(db, dues[..|dues| - 1], h);
    }
  }

  function SweepExpired(db: Db, dues: seq<HoldId>, now: int): Reply {
    if Sweepable(db, dues, now) then Sweep(db, dues) else Refuse(db, ErrNoRows)
  }

  // ---- quota.go ---------------------------------------------------------------

  const MAX_QUOTA_SEATS := 8

  function AllocateQuota(db: Db, counter: CounterId, trip: TripId, seats: seq<SeatNo>, board: int, drop: int): Reply {
    var sm := SegmentMask(board, drop);
    if seats == [] then Refuse(db, ErrNoSeats)
    else if |seats| > MAX_QUOTA_SEATS then Refuse(db, ErrQuotaTooLarge)
    else if sm == None then Refuse(db, ErrBadSegments)
    else
      var ms := Each(seats, sm.value);
      if !Distinct(seats) || !AllReady(db.seats, trip, ms, Block) then Refuse(db, ErrSeatUnavailable)
      else Reply(Allocated(db, counter, trip, ms), Ok, SeatEvents(QUOTA_ALLOCATED, trip, ms))
  }

  function Allocated(db: Db, counter: CounterId, trip: TripId, ms: map<SeatNo, Mask>): Db {
    db.(seats := Touch(db.seats, trip, ms, Block),
        quota := db.quota + QuotaRows(counter, trip, ms, QuotaAllocated))
  }

  function QuotaRows(counter: CounterId, trip: TripId, ms: map<SeatNo, Mask>,
          status: QuotaStatus): (r: map<QuotaKey, QuotaStatus>)
    ensures forall q :: q in r <==> q.counter == counter && q.trip == trip && q.no in ms && q.mask == ms[q.no]
    ensures forall q :: q in r ==> r[q] == status
  {
    map no | no in ms :: QuotaKey(counter, trip, no, ms[no]) := status
  }

  predicate InQuota(db: Db, q: QuotaKey) { q in db.quota && db.quota[q] == QuotaAllocated }

  /** The seats of the list that are this counter's, each at its first occurrence. */
  function Returnable(db: Db, counter: CounterId, trip: TripId, seats: seq<SeatNo>, mask: Mask): (r: seq<SeatNo>)
    ensures Distinct(r)
    ensures forall no :: no in r <==> no in seats && InQuota(db, QuotaKey(counter, trip, no, mask))
  {
    if seats == [] then []
    else
      var n := |seats| - 1;
      assert seats == seats[..n] + [seats[n]];
      var r := Returnable(db, counter, trip, seats[..n], mask);
      if InQuota(db, QuotaKey(counter, trip, seats[n], mask)) && seats[n] !in r then r + [seats[n]] else r
  }

  function ReleaseQuota(db: Db, counter: CounterId, trip: TripId, seats: seq<SeatNo>, mask: Mask): Reply {
    var back := Returnable(db, counter, trip, seats, mask);
    var ms := Each(back, mask);
    Reply(Returned(db, counter, trip, ms), Ok, Batch(QUOTA_RELEASED, trip, back, ms))
  }

  function Returned(db: Db, counter: CounterId, trip: TripId, ms: map<SeatNo, Mask>): Db {
    db.(seats := Touch(db.seats, trip, ms, Unblock),
        quota := db.quota + QuotaRows(counter, trip, ms, QuotaReleased))
  }

  function SellQuota(db: Db, h: HoldId, counter: CounterId, trip: TripId, seats: seq<SeatNo>, board: int, drop: int,
          now: int): Reply {
    var sm := SegmentMask(board, drop);
    if sm == None then Refuse(db, ErrBadSegments)
    else if seats == [] then Refuse(db, ErrNoSeats)
    else if h in db.holds then Refuse(db, ErrDuplicateKey)
    else
      var ms := Each(seats, sm.value);
      if !Distinct(seats) || !Owned(db, counter, trip, ms) || !AllReady(db.seats, trip, ms, BlockToSold)
      then Refuse(db, ErrNotInQuota)
      else Reply(QuotaSale(db, h, counter, trip, ms, now), Ok, SeatEvents(SEAT_BOOKED, trip, ms))
  }

  function QuotaSale(db: Db, h: HoldId, counter: CounterId, trip: TripId, ms: map<SeatNo, Mask>, now: int): Db {
    db.(seats := Touch(db.seats, trip, ms, BlockToSold),
        holds := db.holds[h := HoldRow(trip, CONFIRMED, now)],
        items := db.items + NewItems(h, trip, ms),
        quota := db.quota + QuotaRows(counter, trip, ms, QuotaSold))
  }

  predicate Owned(db: Db, counter: CounterId, trip: TripId, ms: map<SeatNo, Mask>) {
    forall no :: no in ms ==> InQuota(db, QuotaKey(counter, trip, no, ms[no]))
  }

  // ---- remap.go and trips.go ------------------------------------------------------

  function Reassign(db: Db, h: HoldId, oldNo: SeatNo, newNo: SeatNo): Reply {
    var key := ItemKey(h, oldNo);
    if oldNo == newNo then Refuse(db, Ok)
    else if key !in db.items then Refuse(db, ErrHoldNotFound)
    else
      var item := db.items[key];
      var from, to := Seat(item.trip, oldNo), Seat(item.trip, newNo);
      if to !in db.seats || !Ready(TakeSold, db.seats[to], item.mask) then Refuse(db, ErrSeatUnavailable)
      else if from !in db.seats || !Covers(db.seats[from].sold, item.mask) then Refuse(db, ErrNotSold)
      else if ItemKey(h, newNo) in db.items then Refuse(db, ErrDuplicateKey)
      else Reply(Moved(db, h, oldNo, newNo), Ok,
                 [Event(SEAT_RELEASED, from, item.mask), Event(SEAT_BOOKED, to, item.mask)])
  }

  function Moved(db: Db, h: HoldId, oldNo: SeatNo, newNo: SeatNo): Db
    requires ItemKey(h, oldNo) in db.items
    requires Seat(db.items[ItemKey(h, oldNo)].trip, oldNo) in db.seats && Seat(db.items[ItemKey(h, oldNo)].trip, newNo) in db.seats
  {
    var item := db.items[ItemKey(h, oldNo)];
    var from, to := Seat(item.trip, oldNo), Seat(item.trip, newNo);
    db.(seats := db.seats[to := Apply(TakeSold, db.seats[to], item.mask)]
                         [from := Apply(Unsell, db.seats[from], item.mask)],
        items := (db.items - {ItemKey(h, oldNo)})[ItemKey(h, newNo) := item])
  }

  function WithdrawSeat(db: Db, trip: TripId, no: SeatNo): Reply {
    if trip !in db.trips then Refuse(db, ErrNoRows)
    else
      var s, all := Seat(trip, no), AllSegments(db.trips[trip]);
      Reply(if s in db.seats then db.(seats := db.seats[s := Withdraw(db.seats[s], all)]) else db,
            Ok, [Event(SEAT_BLOCKED, s, all)])
  }

  function Withdraw(r: SeatRow, all: Mask): SeatRow {
    r.(blocked := Or(r.blocked, AndNot(all, r.sold)))
  }

  /** A seat of a layout; CREW and BLOCKED seats are not for sale. */
  datatype SeatSpec = SeatSpec(no: SeatNo, forSale: bool)

  function NewRow(spec: SeatSpec, segments: nat): SeatRow {
    SeatRow(0, 0, if spec.forSale then 0 else AllSegments(segments))
  }

  /** INSERT ... ON CONFLICT DO NOTHING, one layout seat after the other. */
  function WithSeats(seats: map<Seat, SeatRow>, trip: TripId, segments: nat, specs: seq<SeatSpec>): map<Seat, SeatRow> {
    if specs == [] then seats
    else
      var n := |specs| - 1;
      var r := WithSeats(seats, trip, segments, specs[..n]);
      if Seat(trip, specs[n].no) in r then r else r[Seat(trip, specs[n].no) := NewRow(specs[n], segments)]
  }

  /** Rows that exist are left alone, and the new ones have nothing held or sold. */
  lemma {:induction false} NewSeats(seats: map<Seat, SeatRow>, trip: TripId, segments: nat, specs: seq<SeatSpec>)
    ensures var r := WithSeats(seats, trip, segments, specs);
      && (forall s :: s in r <==> s in seats || (s.trip == trip && exists i :: 0 <= i < |specs| && specs[i].no == s.no))
      && (forall s :: s in seats ==> r[s] == seats[s])
      && (forall s :: s in r && s !in seats ==> r[s].hold == r[s].sold == 0 && (r[s].blocked == 0 || r[s].blocked == AllSegments(segments)))
  {
    if specs != [] {
      var n := |specs| - 1;
      var before, r := WithSeats(seats, trip, segments, specs[..n]), WithSeats(seats, trip, segments, specs);
      NewSeats(seats, trip, segments, specs[..n]);
      forall s ensures s in r <==> s in seats || (s.trip == trip && exists i :: 0 <= i < |specs| && specs[i].no == s.no) {
        if s in r && s !in seats && s in before {
          var i :| 0 <= i < n && specs[..n][i].no == s.no;
          assert specs[i].no == s.no;
        }
        if i :| s.trip == trip && 0 <= i < |specs| && specs[i].no == s.no {
          assert i < n ==> specs[..n][i].no == s.no;
        }
      }
    }
  }

  function AddSeats(db: Db, trip: TripId, specs: seq<SeatSpec>): Reply {
    if trip !in db.trips then Refuse(db, ErrNoRows)
    else Refuse(db.(seats := WithSeats(db.seats, trip, db.trips[trip], specs)), Ok)
  }

  /** No seat of the layout is named twice or already in the table. */
  predicate FreshSeats(seats: map<Seat, SeatRow>, trip: TripId, specs: seq<SeatSpec>) {
    specs == [] ||
    var n := |specs| - 1;
    && FreshSeats(seats, trip, specs[..n]) && Seat(trip, specs[n].no) !in seats
    && forall j :: 0 <= j < n ==> specs[j].no != specs[n].no
  }

  function OpenTrip(db: Db, trip: TripId, segments: int, specs: seq<SeatSpec>): Reply {
    if segments < 1 || segments > MAX_SEGMENTS then Refuse(db, ErrBadSegments)
    else if specs == [] then Refuse(db, ErrNoSeats)
    else if trip in db.trips then Refuse(db, Ok)
    else if !FreshSeats(db.seats, trip, specs) then Refuse(db, ErrDuplicateKey)
    else Refuse(db.(trips := db.trips[trip := segments], seats := WithSeats(db.seats, trip, segments, specs)), Ok)
  }

  /** The seats FreeSeats lists, SeatMap calls available and CountAvailable counts. */
  function FreeFor(db: Db, trip: TripId, mask: Mask): set<SeatNo> {
    set s | s in db.seats && s.trip == trip && Free(db.seats[s], mask) :: s.no
  }

  // ---- one step of the service -------------------------------------------------------

  datatype Op =
    | OpOpen(trip: TripId, segments: int, specs: seq<SeatSpec>)
    | OpAdd(trip: TripId, specs: seq<SeatSpec>)
    | OpAcquire(h: HoldId, trip: TripId, seats: seq<SeatNo>, board: int, drop: int, expires: int)
    | OpConfirm(h: HoldId)
    | OpRelease(h: HoldId, expired: bool)
    | OpUnsell(h: HoldId)
    | OpSweep(dues: seq<HoldId>, now: int)
    | OpAllocate(counter: CounterId, trip: TripId, seats: seq<SeatNo>, board: int, drop: int)
    | OpReturn(counter: CounterId, trip: TripId, seats: seq<SeatNo>, mask: Mask)
    | OpSell(h: HoldId, counter: CounterId, trip: TripId, seats: seq<SeatNo>, board: int, drop: int, now: int)
    | OpReassign(h: HoldId, oldNo: SeatNo, newNo: SeatNo)
    | OpWithdraw(trip: TripId, no: SeatNo)

  function Step(db: Db, op: Op): Reply {
    match op
    case OpOpen(trip, segments, specs) => OpenTrip(db, trip, segments, specs)
    case OpAdd(trip, specs) => AddSeats(db, trip, specs)
    case OpAcquire(h, trip, seats, board, drop, expires) => AcquireHold(db, h, trip, seats, board, drop, expires)
    case OpConfirm(h) => ConfirmHold(db, h)
    case OpRelease(h, expired) => ReleaseHold(db, h, expired)
    case OpUnsell(h) => ReleaseConfirmed(db, h)
    case OpSweep(dues, now) => SweepExpired(db, dues, now)
    case OpAllocate(counter, trip, seats, board, drop) => AllocateQuota(db, counter, trip, seats, board, drop)
    case OpReturn(counter, trip, seats, mask) => ReleaseQuota(db, counter, trip, seats, mask)
    case OpSell(h, counter, trip, seats, board, drop, now) => SellQuota(db, h, counter, trip, seats, board, drop, now)
    case OpReassign(h, oldNo, newNo) => Reassign(db, h, oldNo, newNo)
    case OpWithdraw(trip, no) => WithdrawSeat(db, trip, no)
  }

  /** The tables and the whole event log after a run. */
  function Run(ops: seq<Op>): (r: Reply) {
    if ops == [] then Refuse(EMPTY, Ok)
    else
      var before := Run(ops[..|ops| - 1]);
      var last := Step(before.db, ops[|ops| - 1]);
      Reply(last.db, last.out, before.log + last.log)
  }
}
