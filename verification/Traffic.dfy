/** The replacement bus while the sale goes on: `Replace` commits each move on its own, so between any two
    of its steps seats can be acquired, released, swept, sold or cancelled. `Replacement` proves what the
    report says when nothing interferes; here is what is left of it when anything may. */
module RemapTraffic {
  import opened Wrappers
  import opened Bits
  import opened Inventory
  import opened Ownership
  import opened Laws
  import opened RemapFacts

  /** What Replace has read when its loop over the passengers starts. */
  datatype Job = Job(trip: TripId, bookings: map<BookingId, Booking>, occupied: seq<Chair>, onNewBus: set<SeatNo>)

  /** Before FreeSeats, or with the candidates that are still to be tried. */
  datatype Phase = Choosing | Trying(candidates: seq<SeatNo>)

  /** A report row, and the tables at each step of the passenger's turn. */
  datatype Entry = Entry(row: Row, moments: seq<Db>)

  datatype World = World(db: Db, phase: Phase, entries: seq<Entry>, moments: seq<Db>)

  /** The next step of the console, for which FreeSeats may list the free seats in any order; or an
      operation of somebody else. */
  datatype Turn = Proceed(free: seq<SeatNo>) | Elsewhere(op: Op)

  predicate Sound(job: Job) { forall c :: c in job.occupied ==> c.booking in job.bookings }

  function BookingOf(job: Job, j: nat): Booking
    requires Sound(job) && j < |job.occupied|
  {
    job.bookings[job.occupied[j].booking]
  }

  function Report(w: World, row: Row): World { World(w.db, Choosing, w.entries + [Entry(row, w.moments)], []) }

  function Advance(job: Job, w: World, free: seq<SeatNo>): World
    requires Sound(job)
  {
    if |w.entries| >= |job.occupied| then w
    else
      var c, k := job.occupied[|w.entries|], BookingOf(job, |w.entries|);
      match w.phase
      case Choosing =>
        if c.no in job.onNewBus then Report(w, Remapped(c, c.no))
        else if (set no | no in free) == FreeFor(w.db, job.trip, Leg(k)) then w.(phase := Trying(free), moments := [w.db])
        else w
      case Trying(candidates) =>
        if candidates == [] then Report(w, Conflict(c))
        else if candidates[0] !in job.onNewBus then w.(phase := Trying(candidates[1..]))
        else
          var r, now := Reassign(w.db, k.hold, c.no, candidates[0]), w.(moments := w.moments + [w.db]);
          if r.out == Ok then Report(now.(db := r.db), Remapped(c, candidates[0]))
          else now.(phase := Trying(candidates[1..]))
  }

  function Deal(job: Job, w: World, t: Turn): World
    requires Sound(job)
  {
    match t
    case Proceed(free) => Advance(job, w, free)
    case Elsewhere(op) => w.(db := Step(w.db, op).db)
  }

  function Play(job: Job, db: Db, turns: seq<Turn>): World
    requires Sound(job)
  {
    if turns == [] then World(db, Choosing, [], [])
    else Deal(job, Play(job, db, turns[..|turns| - 1]), turns[|turns| - 1])
  }

  /** The operation of a turn, if it has one. */
  function OpOf(job: Job, w: World, t: Turn): Option<Op>
    requires Sound(job)
  {
    match t
    case Elsewhere(op) => Some(op)
    case Proceed(_) =>
      if w.phase.Trying? && w.phase.candidates != [] && |w.entries| < |job.occupied| then
        Some(OpReassign(BookingOf(job, |w.entries|).hold, job.occupied[|w.entries|].no, w.phase.candidates[0]))
      else None
  }

  /** Nobody strands a sale, and nobody else moves these passengers. */
  predicate Allowed(job: Job, w: World, t: Turn)
    requires Sound(job)
  {
    && (OpOf(job, w, t).Some? ==> Guarded(w.db, OpOf(job, w, t).value))
    && (t.Elsewhere? && t.op.OpReassign? ==> forall c :: c in job.occupied ==> job.bookings[c.booking].hold != t.op.h)
  }

  predicate AllowedPlay(job: Job, db: Db, turns: seq<Turn>)
    requires Sound(job)
  {
    turns == [] ||
    (AllowedPlay(job, db, turns[..|turns| - 1]) && Allowed(job, Play(job, db, turns[..|turns| - 1]), turns[|turns| - 1]))
  }

  // ---- the invariant ------------------------------------------------------------------------

  /** Where passenger `j` sits now. */
  function SeatNow(job: Job, w: World, j: nat): SeatNo
    requires j < |job.occupied|
  {
    if j < |w.entries| then ChairAfter(w.entries[j].row).no else job.occupied[j].no
  }

  /** At some moment of the turn the seat was not free for the leg. */
  ghost predicate Missed(k: Booking, moments: seq<Db>, no: SeatNo) {
    exists i :: 0 <= i < |moments| && no !in FreeFor(moments[i], k.trip, Leg(k))
  }

  /** The booking has its item on the seat, on no seat another leg, and its hold was CONFIRMED once. */
  ghost predicate Holds(db: Db, k: Booking, no: SeatNo) {
    && SegmentMask(k.board, k.drop).Some?
    && (Confirmed(db, k.hold) || GivenBack(db, k.hold))
    && ItemKey(k.hold, no) in db.items
    && forall n :: ItemKey(k.hold, n) in db.items ==> db.items[ItemKey(k.hold, n)] == ItemRow(k.trip, Leg(k))
  }

  ghost predicate EntryOk(job: Job, db: Db, j: nat, e: Entry)
    requires Sound(job) && j < |job.occupied|
  {
    && e.row.chair == job.occupied[j]
    && match e.row
       case Remapped(_, newNo) => newNo in job.onNewBus
       case Conflict(_) => Confirmed(db, BookingOf(job, j).hold) ==> forall no :: no in job.onNewBus ==> Missed(BookingOf(job, j), e.moments, no)
  }

  ghost predicate TurnOk(job: Job, w: World)
    requires Sound(job)
  {
    w.phase.Trying? ==>
      && |w.entries| < |job.occupied| && job.occupied[|w.entries|].no !in job.onNewBus
      && var k := BookingOf(job, |w.entries|);
         Confirmed(w.db, k.hold) ==> forall no :: no in job.onNewBus ==> no in w.phase.candidates || Missed(k, w.moments, no)
  }

  ghost predicate Apart(job: Job, w: World)
    requires Sound(job)
  {
    forall i, j :: 0 <= i < j < |job.occupied| && BookingOf(job, i).hold == BookingOf(job, j).hold ==> SeatNow(job, w, i) != SeatNow(job, w, j)
  }

  ghost predicate Inv(job: Job, w: World)
    requires Sound(job)
  {
    && |w.entries| <= |job.occupied|
    && (forall j :: 0 <= j < |job.occupied| ==> BookingOf(job, j).trip == job.trip && Holds(w.db, BookingOf(job, j), SeatNow(job, w, j)))
    && (forall j :: 0 <= j < |w.entries| ==> EntryOk(job, w.db, j, w.entries[j]))
    && Apart(job, w) && TurnOk(job, w)
  }

  // ---- one step -----------------------------------------------------------------------------

  lemma TrafficKeepsHolds(db: Db, op: Op, k: Booking, no: SeatNo)
    requires Holds(db, k, no) && !(op.OpReassign? && op.h == k.hold)
    ensures Holds(Step(db, op).db, k, no) && (Confirmed(Step(db, op).db, k.hold) ==> Confirmed(db, k.hold))
  {
    hide Step;
    ItemsStay(db, op, k.hold);
    StatusIsFinal(db, op, k.hold);
    if Confirmed(db, k.hold) { UnsellStatus(db, op, k.hold); }
    assert ItemKey(k.hold, no) in Step(db, op).db.items;
    forall n | ItemKey(k.hold, n) in Step(db, op).db.items
      ensures Step(db, op).db.items[ItemKey(k.hold, n)] == ItemRow(k.trip, Leg(k))
    {
      assert ItemKey(k.hold, n) in db.items;
    }
  }

  lemma UnsellStatus(db: Db, op: Op, h: HoldId)
    requires Confirmed(db, h)
    ensures Confirmed(Step(db, op).db, h) || GivenBack(Step(db, op).db, h)
  {
    if op == OpUnsell(h) { SettlingStatus(db, op, h); } else { StatusIsFinal(db, op, h); }
    hide Step;
  }

  lemma TrafficKeeps(job: Job, w: World, op: Op)
    requires Sound(job) && Inv(job, w) && Allowed(job, w, Elsewhere(op))
    ensures Inv(job, w.(db := Step(w.db, op).db))
  {
    hide Step, Holds, Missed, Guarded, Confirmed, GivenBack;
    var w2 := w.(db := Step(w.db, op).db);
    forall j | 0 <= j < |job.occupied|
      ensures Holds(w2.db, BookingOf(job, j), SeatNow(job, w2, j))
      ensures Confirmed(w2.db, BookingOf(job, j).hold) ==> Confirmed(w.db, BookingOf(job, j).hold)
    {
      assert job.occupied[j] in job.occupied;
      TrafficKeepsHolds(w.db, op, BookingOf(job, j), SeatNow(job, w, j));
    }
    forall j | 0 <= j < |w2.entries| ensures EntryOk(job, w2.db, j, w2.entries[j]) { assert EntryOk(job, w.db, j, w.entries[j]); }
  }

  /** A move is refused only if the seat is not free, as long as the booking stands. */
  lemma RefusedIsTaken(db: Db, own: Owners, k: Booking, oldNo: SeatNo, newNo: SeatNo)
    requires Refines(db, own) && Holds(db, k, oldNo) && Confirmed(db, k.hold) && oldNo != newNo
    requires Reassign(db, k.hold, oldNo, newNo).out != Ok
    ensures newNo !in FreeFor(db, k.trip, Leg(k))
  {
    InFreeFor(db, k.trip, Leg(k), newNo);
    if newNo in FreeFor(db, k.trip, Leg(k)) {
      JourneyBits(k.board, k.drop);
      ItemCovered(db, own, k, oldNo);
      if ItemKey(k.hold, newNo) in db.items { ItemTakes(db, own, k, newNo); }
    }
  }

  lemma ItemCovered(db: Db, own: Owners, k: Booking, no: SeatNo)
    requires Refines(db, own) && Holds(db, k, no) && Confirmed(db, k.hold)
    ensures Seat(k.trip, no) in db.seats && Covers(db.seats[Seat(k.trip, no)].sold, Leg(k))
  {
    forall n: nat | Bit(Leg(k), n) ensures Bit(db.seats[Seat(k.trip, no)].sold, n) {
      ItemOwns(db, own, ItemKey(k.hold, no), n);
      assert Shown(db, own, Seat(k.trip, no), n);
    }
  }

  lemma ItemTakes(db: Db, own: Owners, k: Booking, no: SeatNo)
    requires Refines(db, own) && Holds(db, k, no) && Confirmed(db, k.hold)
    ensures Seat(k.trip, no) in db.seats && !Free(db.seats[Seat(k.trip, no)], Leg(k))
  {
    JourneyBits(k.board, k.drop);
    ItemCovered(db, own, k, no);
    assert Bit(Leg(k), k.board) && Bit(db.seats[Seat(k.trip, no)].sold, k.board);
  }

  /** The passenger sits on the seat of the item. */
  lemma ItemSits(db: Db, own: Owners, k: Booking, no: SeatNo)
    requires Refines(db, own) && Holds(db, k, no) && Confirmed(db, k.hold)
    ensures Sits(own, k, no)
  {
    JourneyBits(k.board, k.drop);
    forall n: nat | k.board <= n < k.drop ensures own(Seat(k.trip, no), n) == Sold(k.hold) { ItemOwns(db, own, ItemKey(k.hold, no), n); }
  }

  lemma MovedHolds(db: Db, k: Booking, oldNo: SeatNo, newNo: SeatNo, other: Booking, no: SeatNo)
    requires Reassign(db, k.hold, oldNo, newNo).out == Ok && oldNo != newNo && Holds(db, k, oldNo) && Holds(db, other, no)
    requires other.hold == k.hold ==> no != oldNo
    ensures Holds(Reassign(db, k.hold, oldNo, newNo).db, other, no) && ItemKey(k.hold, newNo) !in db.items
    ensures Holds(Reassign(db, k.hold, oldNo, newNo).db, k, newNo)
  {
    hide Covers, Free;
  }

  lemma MoveKeeps(job: Job, w: World, free: seq<SeatNo>, newNo: SeatNo)
    requires Sound(job) && Inv(job, w) && w.phase.Trying? && w.phase.candidates != [] && w.phase.candidates[0] == newNo && newNo in job.onNewBus
    requires Reassign(w.db, BookingOf(job, |w.entries|).hold, job.occupied[|w.entries|].no, newNo).out == Ok
    ensures Inv(job, Advance(job, w, free))
  {
    var n, w2 := |w.entries|, Advance(job, w, free);
    var c, k := job.occupied[n], BookingOf(job, n);
    assert SeatNow(job, w, n) == c.no && SeatNow(job, w2, n) == newNo;
    assert Confirmed(w2.db, k.hold) ==> Confirmed(w.db, k.hold);
    hide Reassign, Confirmed, GivenBack, Missed, Holds;
    forall j | 0 <= j < |job.occupied| && j != n
      ensures SeatNow(job, w2, j) == SeatNow(job, w, j) && Holds(w2.db, BookingOf(job, j), SeatNow(job, w, j))
      ensures BookingOf(job, j).hold == k.hold ==> SeatNow(job, w, j) != newNo
    {
      MovedHolds(w.db, k, c.no, newNo, BookingOf(job, j), SeatNow(job, w, j));
      OtherSeat(w.db, k, newNo, BookingOf(job, j), SeatNow(job, w, j));
    }
    MovedItem(w.db, k, c.no, newNo);
    HoldsKeep(job, w, w2, n, newNo);
  }

  lemma OtherSeat(db: Db, k: Booking, newNo: SeatNo, other: Booking, no: SeatNo)
    requires ItemKey(k.hold, newNo) !in db.items && Holds(db, other, no)
    ensures other.hold == k.hold ==> no != newNo
  {
  }

  lemma MovedItem(db: Db, k: Booking, oldNo: SeatNo, newNo: SeatNo)
    requires Reassign(db, k.hold, oldNo, newNo).out == Ok && oldNo != newNo && Holds(db, k, oldNo)
    ensures Holds(Reassign(db, k.hold, oldNo, newNo).db, k, newNo)
    ensures Reassign(db, k.hold, oldNo, newNo).db.holds == db.holds
  {
    hide Covers, Free;
  }

  lemma HoldsKeep(job: Job, w: World, w2: World, n: nat, newNo: SeatNo)
    requires Sound(job) && Inv(job, w) && n < |job.occupied| && n == |w.entries|
    requires w2.phase == Choosing && |w2.entries| == n + 1 && w2.entries[..n] == w.entries && w2.entries[n].row == Remapped(job.occupied[n], newNo)
    requires newNo in job.onNewBus && w2.db.holds == w.db.holds
    requires Holds(w2.db, BookingOf(job, n), newNo)
    requires forall j :: 0 <= j < |job.occupied| && j != n ==> Holds(w2.db, BookingOf(job, j), SeatNow(job, w, j))
    requires forall j :: 0 <= j < |job.occupied| && j != n && BookingOf(job, j).hold == BookingOf(job, n).hold ==> SeatNow(job, w, j) != newNo
    ensures Inv(job, w2)
  {
    hide Holds, Missed;
    forall j | 0 <= j < |job.occupied| ensures SeatNow(job, w2, j) == if j == n then newNo else SeatNow(job, w, j) {
      if j < n { assert w2.entries[j] == w2.entries[..n][j]; }
    }
    forall j | 0 <= j < |w2.entries| ensures EntryOk(job, w2.db, j, w2.entries[j]) {
      if j < n { assert w2.entries[j] == w2.entries[..n][j] && EntryOk(job, w.db, j, w.entries[j]); }
    }
  }

  /** A row without a move. */
  lemma RowKeeps(job: Job, w: World, row: Row)
    requires Sound(job) && Inv(job, w) && |w.entries| < |job.occupied| && ChairAfter(row) == job.occupied[|w.entries|]
    requires EntryOk(job, w.db, |w.entries|, Entry(row, w.moments))
    ensures Inv(job, Report(w, row))
  {
    hide Holds, EntryOk;
    var w2, n := Report(w, row), |w.entries|;
    forall j | 0 <= j < |job.occupied| ensures SeatNow(job, w2, j) == SeatNow(job, w, j) {
      if j < n { assert w2.entries[j] == w.entries[j]; }
    }
  }

  lemma ChoosingKeeps(job: Job, w: World, free: seq<SeatNo>)
    requires Sound(job) && Inv(job, w) && w.phase == Choosing && |w.entries| < |job.occupied|
    ensures Inv(job, Advance(job, w, free))
  {
    hide Holds, FreeFor;
    var c := job.occupied[|w.entries|];
    if c.no in job.onNewBus {
      RowKeeps(job, w, Remapped(c, c.no));
    } else {
      var w2, k := Advance(job, w, free), BookingOf(job, |w.entries|);
      if w2.phase.Trying? {
        forall no | no in job.onNewBus ensures no in free || Missed(k, w2.moments, no) {
          if no !in free { assert no !in (set f | f in free) && no !in FreeFor(w2.moments[0], k.trip, Leg(k)); }
        }
      }
      assert forall j :: 0 <= j < |job.occupied| ==> SeatNow(job, w2, j) == SeatNow(job, w, j);
    }
  }

  lemma RefusalKeeps(job: Job, w: World, own: Owners, free: seq<SeatNo>)
    requires Sound(job) && Inv(job, w) && Refines(w.db, own) && w.phase.Trying? && w.phase.candidates != []
    requires w.phase.candidates[0] in job.onNewBus
    requires Reassign(w.db, BookingOf(job, |w.entries|).hold, job.occupied[|w.entries|].no, w.phase.candidates[0]).out != Ok
    ensures Inv(job, Advance(job, w, free))
  {
    var n, w2, first := |w.entries|, Advance(job, w, free), w.phase.candidates[0];
    var k := BookingOf(job, n);
    assert SeatNow(job, w, n) == job.occupied[n].no && Holds(w.db, k, SeatNow(job, w, n));
    if Confirmed(w.db, k.hold) { RefusedIsTaken(w.db, own, k, job.occupied[n].no, first); }
    hide Reassign, Holds, FreeFor, Refines, Confirmed;
    MoreMoments(job, w, k, first);
    assert forall j :: 0 <= j < |job.occupied| ==> SeatNow(job, w2, j) == SeatNow(job, w, j);
  }

  lemma MoreMoments(job: Job, w: World, k: Booking, first: SeatNo)
    requires w.phase.Trying? && w.phase.candidates != [] && w.phase.candidates[0] == first
    ensures forall no :: Missed(k, w.moments, no) ==> Missed(k, w.moments + [w.db], no)
    ensures first !in FreeFor(w.db, k.trip, Leg(k)) ==> Missed(k, w.moments + [w.db], first)
    ensures forall no :: no in w.phase.candidates ==> no == first || no in w.phase.candidates[1..]
  {
    var more := w.moments + [w.db];
    hide FreeFor;
    assert more[|w.moments|] == w.db;
    forall no | Missed(k, w.moments, no) ensures Missed(k, more, no) {
      var i :| 0 <= i < |w.moments| && no !in FreeFor(w.moments[i], k.trip, Leg(k));
      assert more[i] == w.moments[i];
    }
  }

  lemma TryingKeeps(job: Job, w: World, own: Owners, free: seq<SeatNo>)
    requires Sound(job) && Inv(job, w) && Refines(w.db, own) && w.phase.Trying?
    ensures Inv(job, Advance(job, w, free))
  {
    hide Holds, Refines, Missed, Reassign;
    var n := |w.entries|;
    if w.phase.candidates == [] {
      RowKeeps(job, w, Conflict(job.occupied[n]));
    } else if w.phase.candidates[0] !in job.onNewBus {
      var w2 := Advance(job, w, free);
      assert forall j :: 0 <= j < |job.occupied| ==> SeatNow(job, w2, j) == SeatNow(job, w, j);
    } else if Reassign(w.db, BookingOf(job, n).hold, job.occupied[n].no, w.phase.candidates[0]).out == Ok {
      MoveKeeps(job, w, free, w.phase.candidates[0]);
    } else {
      RefusalKeeps(job, w, own, free);
    }
  }

  lemma DealKeeps(job: Job, w: World, own: Owners, t: Turn)
    requires Sound(job) && Inv(job, w) && Refines(w.db, own) && Allowed(job, w, t)
    ensures Inv(job, Deal(job, w, t))
  {
    hide Holds, Refines, Step;
    match t
    case Elsewhere(op) => TrafficKeeps(job, w, op);
    case Proceed(free) =>
      if w.phase.Trying? { TryingKeeps(job, w, own, free); }
      else if |w.entries| < |job.occupied| { ChoosingKeeps(job, w, free); }
  }

  lemma OnlyOpsChange(job: Job, w: World, t: Turn)
    requires Sound(job) && Deal(job, w, t).db != w.db
    ensures OpOf(job, w, t).Some? && Deal(job, w, t).db == Step(w.db, OpOf(job, w, t).value).db
  {
    hide Step, Reassign;
    if t.Proceed? && w.phase.Trying? && w.phase.candidates != [] && |w.entries| < |job.occupied| {
      ReassignIsStep(w.db, BookingOf(job, |w.entries|).hold, job.occupied[|w.entries|].no, w.phase.candidates[0]);
    }
  }

  lemma ReassignIsStep(db: Db, h: HoldId, oldNo: SeatNo, newNo: SeatNo)
    ensures Step(db, OpReassign(h, oldNo, newNo)) == Reassign(db, h, oldNo, newNo)
  {
    hide Reassign;
  }

  lemma DealRefines(job: Job, w: World, own: Owners, t: Turn) returns (own2: Owners)
    requires Sound(job) && Refines(w.db, own) && Allowed(job, w, t)
    ensures Refines(Deal(job, w, t).db, own2)
  {
    own2 := own;
    if Deal(job, w, t).db != w.db {
      OnlyOpsChange(job, w, t);
      hide Refines, After, Step, Deal, Guarded, OpOf;
      var op := OpOf(job, w, t).value;
      StepRefines(w.db, own, op);
      if Step(w.db, op).out == Ok { own2 := After(own, w.db, op); }
    }
  }

  /** What Replace reads before its loop agrees with the inventory. */
  lemma StartOk(job: Job, db: Db, booked: set<Chair>)
    requires Sound(job) && Keys(db) && Seated(db, job.bookings, booked, job.trip) && Distinct(job.occupied)
    requires forall c :: c in job.occupied ==> c in booked && Travels(job.bookings, c.booking, job.trip)
    ensures Inv(job, World(db, Choosing, [], []))
  {
    forall j | 0 <= j < |job.occupied| ensures Holds(db, BookingOf(job, j), job.occupied[j].no) {
      assert job.occupied[j] in job.occupied && HoldsItsChairs(db, booked, job.occupied[j].booking, BookingOf(job, j));
    }
  }

  lemma {:induction false} PlayKeeps(job: Job, db: Db, own: Owners, turns: seq<Turn>) returns (own2: Owners)
    requires Sound(job) && Refines(db, own) && Inv(job, World(db, Choosing, [], [])) && AllowedPlay(job, db, turns)
    ensures Refines(Play(job, db, turns).db, own2) && Inv(job, Play(job, db, turns))
  {
    hide Inv, Refines, Deal, Allowed;
    own2 := own;
    if turns != [] {
      own2 := PlayKeeps(job, db, own, turns[..|turns| - 1]);
      var w := Play(job, db, turns[..|turns| - 1]);
      DealKeeps(job, w, own2, turns[|turns| - 1]);
      own2 := DealRefines(job, w, own2, turns[|turns| - 1]);
    }
  }

  /** Whatever is sold, released, swept, cancelled or withdrawn while the passengers are moved: nobody is
      given a segment that somebody else owns, every passenger reported so far whose booking still stands
      owns the whole leg on the reported seat, and a conflict means that no seat of the new bus was free
      throughout that passenger's turn. */
  lemma ReportUnderTraffic(job: Job, db: Db, own: Owners, booked: set<Chair>, turns: seq<Turn>) returns (own2: Owners)
    requires Sound(job) && Refines(db, own) && Seated(db, job.bookings, booked, job.trip) && Distinct(job.occupied)
    requires forall c :: c in job.occupied ==> c in booked && Travels(job.bookings, c.booking, job.trip)
    requires AllowedPlay(job, db, turns)
    ensures var w := Play(job, db, turns);
      && Refines(w.db, own2) && |w.entries| <= |job.occupied|
      && forall j :: 0 <= j < |w.entries| ==>
           var row, k := w.entries[j].row, BookingOf(job, j);
           && row.chair == job.occupied[j] && (row.Remapped? ==> row.newNo in job.onNewBus)
           && (Confirmed(w.db, k.hold) ==>
                 && Sits(own2, k, ChairAfter(row).no)
                 && (row.Conflict? ==> forall no :: no in job.onNewBus ==> Missed(k, w.entries[j].moments, no)))
  {
    StartOk(job, db, booked);
    own2 := PlayKeeps(job, db, own, turns);
    var w := Play(job, db, turns);
    hide Play, Refines, Holds, Sits, Missed, AllowedPlay, Seated;
    forall j | 0 <= j < |w.entries| && Confirmed(w.db, BookingOf(job, j).hold)
      ensures Sits(own2, BookingOf(job, j), ChairAfter(w.entries[j].row).no)
    {
      ItemSits(w.db, own2, BookingOf(job, j), SeatNow(job, w, j));
    }
  }

  /** The runs include all traffic: before each step of the console the inventory may do whatever it can do. */
  lemma {:induction false} TrafficIsIncluded(job: Job, db: Db, turns: seq<Turn>, ops: seq<Op>)
    returns (longer: seq<Turn>)
    requires Sound(job)
    ensures Play(job, db, longer) == Play(job, db, turns).(db := RunFrom(Play(job, db, turns).db, ops))
    decreases |ops|
  {
    hide Step;
    longer := turns;
    if ops != [] {
      assert (turns + [Elsewhere(ops[0])])[..|turns|] == turns;
      longer := TrafficIsIncluded(job, db, turns + [Elsewhere(ops[0])], ops[1..]);
    }
  }

  /** The moments of a report row are tables that the run went through. */
  ghost predicate WentThrough(job: Job, db: Db, turns: seq<Turn>, moments: seq<Db>)
    requires Sound(job)
  {
    forall i :: 0 <= i < |moments| ==> exists n :: 0 <= n < |turns| && moments[i] == Play(job, db, turns[..n]).db
  }

  lemma LongerRun(job: Job, db: Db, turns: seq<Turn>, moments: seq<Db>)
    requires Sound(job) && turns != [] && WentThrough(job, db, turns[..|turns| - 1], moments)
    ensures WentThrough(job, db, turns, moments)
    ensures WentThrough(job, db, turns, moments + [Play(job, db, turns[..|turns| - 1]).db])
  {
    hide Play;
    var init := turns[..|turns| - 1];
    forall i | 0 <= i < |moments| ensures exists n :: 0 <= n < |turns| && moments[i] == Play(job, db, turns[..n]).db {
      var n :| 0 <= n < |init| && moments[i] == Play(job, db, init[..n]).db;
      assert init[..n] == turns[..n];
    }
  }

  lemma {:induction false} MomentsAreStates(job: Job, db: Db, turns: seq<Turn>)
    requires Sound(job)
    ensures WentThrough(job, db, turns, Play(job, db, turns).moments)
    ensures forall e :: e in Play(job, db, turns).entries ==> WentThrough(job, db, turns, e.moments)
  {
    if turns != [] {
      var init := turns[..|turns| - 1];
      MomentsAreStates(job, db, init);
      var w := Play(job, db, init);
      LongerRun(job, db, turns, w.moments);
      assert WentThrough(job, db, init, []);
      LongerRun(job, db, turns, []);
      assert [] + [w.db] == [w.db];
      forall e | e in w.entries ensures WentThrough(job, db, turns, e.moments) { LongerRun(job, db, turns, e.moments); }
      hide WentThrough, Reassign, Step;
    }
  }

  // ---- without traffic ------------------------------------------------------------------------

  /** The first candidate that exists on the new bus. */
  function FirstOn(candidates: seq<SeatNo>, onNewBus: set<SeatNo>): Option<SeatNo> {
    if candidates == [] then None
    else if candidates[0] in onNewBus then Some(candidates[0])
    else FirstOn(candidates[1..], onNewBus)
  }

  function Steps(job: Job, w: World, n: nat): World
    requires Sound(job)
    decreases n
  {
    if n == 0 then w else Steps(job, Advance(job, w, []), n - 1)
  }

  /** If nothing interferes after FreeSeats, the first listed seat of the new bus is granted: no retry is needed,
      and the row is the one that the console reports alone. */
  lemma {:induction false} UndisturbedTurn(job: Job, w: World, own: Owners) returns (n: nat)
    requires Sound(job) && Inv(job, w) && Refines(w.db, own) && w.phase.Trying?
    requires Confirmed(w.db, BookingOf(job, |w.entries|).hold)
    requires forall no :: no in w.phase.candidates ==> no in FreeFor(w.db, job.trip, Leg(BookingOf(job, |w.entries|)))
    ensures var w2, c := Steps(job, w, n), job.occupied[|w.entries|]; var first := FirstOn(w.phase.candidates, job.onNewBus);
      && |w2.entries| == |w.entries| + 1 && w2.phase == Choosing
      && w2.entries[|w.entries|].row == (if first.Some? then Remapped(c, first.value) else Conflict(c))
      && (first == None ==> w2.db == w.db)
      && (first.Some? ==> w2.db == Reassign(w.db, BookingOf(job, |w.entries|).hold, c.no, first.value).db)
    decreases |w.phase.candidates|
  {
    var candidates, k, c := w.phase.candidates, BookingOf(job, |w.entries|), job.occupied[|w.entries|];
    hide Inv, Refines, FreeFor, Confirmed, Reassign;
    var w1 := Advance(job, w, []);
    StepsUnfold(job, w);
    if candidates != [] && candidates[0] in job.onNewBus { FirstIsGranted(job, w, own, candidates[0]); }
    if candidates != [] && candidates[0] !in job.onNewBus {
      TryingKeeps(job, w, own, []);
      assert forall no :: no in candidates[1..] ==> no in candidates;
      n := UndisturbedTurn(job, w1, own);
      n := n + 1;
    } else {
      n := 1;
    }
  }

  lemma StepsUnfold(job: Job, w: World)
    requires Sound(job)
    ensures forall n: nat :: Steps(job, w, n + 1) == Steps(job, Advance(job, w, []), n)
    ensures Steps(job, w, 1) == Advance(job, w, [])
  {
    hide Advance;
    assert Steps(job, Advance(job, w, []), 0) == Advance(job, w, []);
  }

  lemma FirstIsGranted(job: Job, w: World, own: Owners, newNo: SeatNo)
    requires Sound(job) && Inv(job, w) && Refines(w.db, own) && w.phase.Trying?
    requires Confirmed(w.db, BookingOf(job, |w.entries|).hold) && newNo in job.onNewBus
    requires newNo in FreeFor(w.db, job.trip, Leg(BookingOf(job, |w.entries|)))
    ensures Reassign(w.db, BookingOf(job, |w.entries|).hold, job.occupied[|w.entries|].no, newNo).out == Ok
  {
    var n, k := |w.entries|, BookingOf(job, |w.entries|);
    assert SeatNow(job, w, n) == job.occupied[n].no && Holds(w.db, k, SeatNow(job, w, n)) && k.trip == job.trip;
    hide Reassign, Refines, FreeFor, Holds, Confirmed;
    if Reassign(w.db, k.hold, job.occupied[n].no, newNo).out != Ok { RefusedIsTaken(w.db, own, k, job.occupied[n].no, newNo); }
  }
}
