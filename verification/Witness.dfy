/** Concrete runs: a trip with two seats and one segment, on which the states exist that the laws speak of. */
module TwoSeats {
  import opened Wrappers
  import opened Bits
  import opened Inventory
  import opened Ownership
  import opened Laws

  type Holds = map<HoldId, HoldRow>

  /** The trip after some holds of seat 0, with the masks of that seat. */
  function Trip(hold: Mask, sold: Mask, holds: Holds, items: map<ItemKey, ItemRow>): Db {
    Db(map[0 := 1], map[Seat(0, 0) := SeatRow(hold, sold, 0), Seat(0, 1) := SeatRow(0, 0, 0)], holds, items, map[])
  }

  const OPEN := OpOpen(0, 1, [SeatSpec(0, true), SeatSpec(1, true)])
  function Take(h: HoldId): Op { OpAcquire(h, 0, [0], 0, 1, 600) }
  function Row(status: Status): HoldRow { HoldRow(0, status, 600) }
  const ITEM := ItemRow(0, 1)

  lemma OneSegment()
    ensures SegmentMask(0, 1) == Some(1) && Or(0, 0) == 0 && Or(0, 1) == 1 && AndNot(0, 1) == 0 && AndNot(1, 1) == 0
    ensures Disjoint(0, 1) && Covers(1, 1)
  {
    assert Pow2(1) == 2 && Pow2(0) == 1;
    assert Or(0, 1) == 2 * Or(0, 0) + 1;
    assert AndNot(1, 1) == 2 * AndNot(0, 0);
    ZeroHasNoBits();
  }

  lemma Opens()
    ensures Step(EMPTY, OPEN).db == Trip(0, 0, map[], map[])
  {
    var specs := OPEN.specs;
    assert specs[..1] == [specs[0]] && specs[..1][..0] == [];
    assert FreshSeats(map[], 0, specs[..1]) && FreshSeats(map[], 0, specs);
    assert WithSeats(map[], 0, 1, specs[..1]) == map[Seat(0, 0) := SeatRow(0, 0, 0)];
    assert OpenTrip(EMPTY, 0, 1, specs).db.seats == Trip(0, 0, map[], map[]).seats;
  }

  lemma Granted(h: HoldId, holds: Holds, items: map<ItemKey, ItemRow>)
    requires h !in holds
    ensures Step(Trip(0, 0, holds, items), Take(h)).db == Acquired(Trip(0, 0, holds, items), h, 0, map[0 := 1], 600)
  {
    OneSegment();
    var db := Trip(0, 0, holds, items);
    assert Each([0], 1) == map[0 := 1];
    assert db.seats[Seat(0, 0)] == SeatRow(0, 0, 0) && Ready(TakeHold, SeatRow(0, 0, 0), 1);
    hide Acquired, Or, SegmentMask, SeatEvents, Trip, Ready;
  }

  lemma Touched(hold: Mask, sold: Mask, holds: Holds, items: map<ItemKey, ItemRow>, mv: Move)
    ensures var r := Apply(mv, SeatRow(hold, sold, 0), 1);
      r.blocked == 0 ==> Touch(Trip(hold, sold, holds, items).seats, 0, map[0 := 1], mv) == Trip(r.hold, r.sold, holds, items).seats
  {
    hide Apply;
  }

  lemma NewItem(h: HoldId)
    ensures NewItems(h, 0, map[0 := 1]) == map[ItemKey(h, 0) := ITEM]
  {
  }

  lemma TakesMask()
    ensures Apply(TakeHold, SeatRow(0, 0, 0), 1) == SeatRow(1, 0, 0)
  {
    OneSegment();
  }

  lemma Takes(h: HoldId, holds: Holds, items: map<ItemKey, ItemRow>)
    requires h !in holds
    ensures Step(Trip(0, 0, holds, items), Take(h)).db == Trip(1, 0, holds[h := Row(HELD)], items[ItemKey(h, 0) := ITEM])
  {
    Granted(h, holds, items);
    Touched(0, 0, holds, items, TakeHold);
    NewItem(h);
    TakesMask();
    assert items + map[ItemKey(h, 0) := ITEM] == items[ItemKey(h, 0) := ITEM];
    hide Step, Touch, NewItems, Apply, Or, Digit, Bit;
  }

  /** Seat 0 is the only item of the hold. */
  ghost predicate OnlySeat(items: map<ItemKey, ItemRow>, h: HoldId) {
    forall no :: ItemKey(h, no) in items <==> no == 0
  }

  /** The hold's seat goes into or out of a mask, and the hold into a new status. */
  lemma Moves(hold: Mask, sold: Mask, holds: Holds, items: map<ItemKey, ItemRow>, h: HoldId, mv: Move, status: Status)
    requires h in holds && holds[h] == Row(holds[h].status) && OnlySeat(items, h) && items[ItemKey(h, 0)] == ITEM
    ensures ItemsOf(Trip(hold, sold, holds, items), h) == map[0 := 1]
    ensures var r := Apply(mv, SeatRow(hold, sold, 0), 1);
      r.blocked == 0 ==> Settle(Trip(hold, sold, holds, items), h, mv, status) == Trip(r.hold, r.sold, holds[h := Row(status)], items)
  {
    var db := Trip(hold, sold, holds, items);
    assert ItemsOf(db, h) == map[0 := 1];
    Touched(hold, sold, holds, items, mv);
    hide Apply, Touch;
  }

  lemma Confirms(h: HoldId, holds: Holds, items: map<ItemKey, ItemRow>)
    requires h in holds && holds[h] == Row(HELD) && OnlySeat(items, h) && items[ItemKey(h, 0)] == ITEM
    ensures Step(Trip(1, 0, holds, items), OpConfirm(h)).out == Ok
    ensures Step(Trip(1, 0, holds, items), OpConfirm(h)).db == Trip(0, 1, holds[h := Row(CONFIRMED)], items)
  {
    OneSegment();
    Moves(1, 0, holds, items, h, HoldToSold, CONFIRMED);
    hide Settle, ItemsOf, OnlySeat;
  }

  lemma Releases(h: HoldId, holds: Holds, items: map<ItemKey, ItemRow>)
    requires h in holds && holds[h] == Row(HELD) && OnlySeat(items, h) && items[ItemKey(h, 0)] == ITEM
    ensures Step(Trip(1, 0, holds, items), OpRelease(h, false)).db == Trip(0, 0, holds[h := Row(RELEASED)], items)
  {
    OneSegment();
    Moves(1, 0, holds, items, h, DropHold, RELEASED);
    hide Settle, ItemsOf, OnlySeat;
  }

  lemma Unsold(h: HoldId, holds: Holds, items: map<ItemKey, ItemRow>)
    requires h in holds && holds[h] == Row(CONFIRMED) && OnlySeat(items, h) && items[ItemKey(h, 0)] == ITEM
    ensures Step(Trip(0, 1, holds, items), OpUnsell(h)).out == Ok
    ensures Step(Trip(0, 1, holds, items), OpUnsell(h)).db == Trip(0, 0, holds[h := Row(RELEASED)], items)
  {
    OneSegment();
    Moves(0, 1, holds, items, h, Unsell, RELEASED);
    hide Settle, ItemsOf, OnlySeat;
  }

  /** A released hold whose seat was sold again: a move of the first hold strands a sale. */
  lemma Stranding(h: HoldId, holds: Holds, items: map<ItemKey, ItemRow>)
    requires h in holds && holds[h] == Row(RELEASED) && OnlySeat(items, h) && items[ItemKey(h, 0)] == ITEM
    ensures Strands(Trip(0, 1, holds, items), h, 0, 1)
  {
    OneSegment();
  }

  const RESOLD := [OPEN, Take(1), OpRelease(1, false), Take(2), OpConfirm(2)]

  lemma RunNext(ops: seq<Op>, op: Op)
    ensures Run(ops + [op]).db == Step(Run(ops).db, op).db
    ensures GuardedRun(ops) && !op.OpReassign? ==> GuardedRun(ops + [op])
  {
    assert (ops + [op])[..|ops|] == ops;
    hide Step;
  }

  /** A run of five ordinary operations ends in a state that Reassign strands. */
  lemma SomeRunStrands()
    ensures GuardedRun(RESOLD) && Strands(Run(RESOLD).db, 1, 0, 1)
  {
    var one, two := map[ItemKey(1, 0) := ITEM], map[ItemKey(1, 0) := ITEM][ItemKey(2, 0) := ITEM];
    assert OnlySeat(one, 1) && OnlySeat(two, 1) && OnlySeat(two, 2);
    assert Run([]).db == EMPTY && GuardedRun([]);
    hide Step, Strands, OnlySeat, Run, GuardedRun, Trip;
    RunNext([], OPEN);
    Opens();
    RunNext([OPEN], Take(1));
    Takes(1, map[], map[]);
    RunNext([OPEN, Take(1)], OpRelease(1, false));
    Releases(1, map[1 := Row(HELD)], one);
    var freed := map[1 := Row(HELD)][1 := Row(RELEASED)];
    RunNext([OPEN, Take(1), OpRelease(1, false)], Take(2));
    Takes(2, freed, one);
    RunNext([OPEN, Take(1), OpRelease(1, false), Take(2)], OpConfirm(2));
    Confirms(2, freed[2 := Row(HELD)], two);
    Stranding(1, freed[2 := Row(HELD)][2 := Row(CONFIRMED)], two);
    assert [] + [OPEN] == [OPEN] && [OPEN] + [Take(1)] == [OPEN, Take(1)];
    assert [OPEN, Take(1)] + [OpRelease(1, false)] == [OPEN, Take(1), OpRelease(1, false)];
    assert [OPEN, Take(1), OpRelease(1, false)] + [Take(2)] == [OPEN, Take(1), OpRelease(1, false), Take(2)];
    assert [OPEN, Take(1), OpRelease(1, false), Take(2)] + [OpConfirm(2)] == RESOLD;
  }
}

/** Runs of the saga, from empty tables, into the states that its promises do not cover. */
module SagaWitnesses {
  import opened Wrappers
  import opened Bits
  import opened Inventory
  import opened Ownership
  import opened Laws
  import opened Ledger
  import opened SagaTables
  import opened SagaRuns
  import opened RefundRuns
  import opened TwoSeats

  const BOOKING := Booking(1, [0], PAYMENT_PENDING, SERVICE_FEE, 0, None)
  const CANCELS := Cancellation(0, 100, false)
  const JOBS := [AgentSale(0), CANCELS, CANCELS, RefundCallback(0), RefundCallback(0)]

  function Waiting(first: Phase): seq<Process> {
    [Process(JOBS[0], first)] + seq(4, i requires 0 <= i < 4 => Process(JOBS[i + 1], Begin))
  }

  const ONE: map<ItemKey, ItemRow> := map[ItemKey(1, 0) := ITEM]
  const BOOKED := NO_SHOP.(bookings := map[0 := BOOKING])
  const PAID := Pay(BOOKED, PayKey(AGENT_WALLET, 0), Payment(0, SERVICE_FEE))
  const ISSUED := Finalise(PAID, 0, AgentPostings(SERVICE_FEE))

  const SALE_TURNS := [Elsewhere(OPEN), Elsewhere(Take(1)), Create(0, BOOKING), Run(0), Run(0), Run(0), Run(0)]

  lemma OrdinaryTurn(w: World, op: Op)
    requires !op.OpUnsell? && !op.OpReassign?
    ensures Deal(w, Elsewhere(op)) == w.(db := Step(w.db, op).db)
  {
    hide Step;
  }

  lemma OpeningIs()
    ensures Opening(EMPTY, JOBS) == World(EMPTY, NO_SHOP, Waiting(Begin), {})
  {
    var ps := Opening(EMPTY, JOBS).processes;
    assert |ps| == 5 && forall i :: 0 <= i < 5 ==> ps[i] == Waiting(Begin)[i];
  }

  lemma SeatIsTaken()
    ensures Deal(World(EMPTY, NO_SHOP, Waiting(Begin), {}), Elsewhere(OPEN)) == World(Trip(0, 0, map[], map[]), NO_SHOP, Waiting(Begin), {})
    ensures Deal(World(Trip(0, 0, map[], map[]), NO_SHOP, Waiting(Begin), {}), Elsewhere(Take(1)))
         == World(Trip(1, 0, map[1 := Row(HELD)], ONE), NO_SHOP, Waiting(Begin), {})
  {
    OrdinaryTurn(World(EMPTY, NO_SHOP, Waiting(Begin), {}), OPEN);
    OrdinaryTurn(World(Trip(0, 0, map[], map[]), NO_SHOP, Waiting(Begin), {}), Take(1));
    hide Step, Trip, Deal, Waiting;
    Opens();
    Takes(1, map[], map[]);
  }

  lemma BookingIsPaid(db: Db)
    ensures Deal(World(db, NO_SHOP, Waiting(Begin), {}), Create(0, BOOKING)) == World(db, BOOKED, Waiting(Begin), {})
    ensures Deal(World(db, BOOKED, Waiting(Begin), {}), Run(0)) == World(db, BOOKED, Waiting(Paying), {})
    ensures Deal(World(db, BOOKED, Waiting(Paying), {}), Run(0)) == World(db, PAID, Waiting(Confirming), {})
  {
    assert Distinct([0]);
    assert Waiting(Begin)[0 := Process(JOBS[0], Paying)] == Waiting(Paying);
    assert Waiting(Paying)[0 := Process(JOBS[0], Confirming)] == Waiting(Confirming);
    hide Step;
  }

  lemma SeatIsConfirmed()
    ensures Deal(World(Trip(1, 0, map[1 := Row(HELD)], ONE), PAID, Waiting(Confirming), {}), Run(0))
         == World(Trip(0, 1, map[1 := Row(CONFIRMED)], ONE), PAID, Waiting(Finishing), {})
  {
    assert OnlySeat(ONE, 1);
    hide Step, Trip, OnlySeat;
    Confirms(1, map[1 := Row(HELD)], ONE);
    assert map[1 := Row(HELD)][1 := Row(CONFIRMED)] == map[1 := Row(CONFIRMED)];
    assert Waiting(Confirming)[0 := Process(JOBS[0], Finishing)] == Waiting(Finishing);
  }

  lemma IssuedIs()
    ensures ISSUED.bookings == map[0 := BOOKING.(status := TICKETED)] && ISSUED.refunds == []
  {
    SaleIsBookedIff(SERVICE_FEE, SERVICE_FEE, true);
    hide Journal, AgentPostings, Issue;
  }

  lemma BookingIsTicketed()
    ensures forall db :: Deal(World(db, PAID, Waiting(Finishing), {}), Run(0)) == World(db, ISSUED, Waiting(Done), {})
    ensures ISSUED.bookings == map[0 := BOOKING.(status := TICKETED)] && ISSUED.refunds == []
  {
    IssuedIs();
    assert Waiting(Finishing)[0 := Process(JOBS[0], Done)] == Waiting(Done);
    hide Step, Finalise;
  }

  function SoldWorld(): World { World(Trip(0, 1, map[1 := Row(CONFIRMED)], ONE), ISSUED, Waiting(Done), {}) }

  lemma Sale()
    ensures Play(Opening(EMPTY, JOBS), SALE_TURNS) == SoldWorld() && Inv(SoldWorld())
  {
    OpeningIs();
    SeatIsTaken();
    var taken, sold := Trip(1, 0, map[1 := Row(HELD)], ONE), Trip(0, 1, map[1 := Row(CONFIRMED)], ONE);
    BookingIsPaid(taken);
    SeatIsConfirmed();
    BookingIsTicketed();
    OpeningOk(EMPTY, JOBS);
    PlayKeeps(Opening(EMPTY, JOBS), SALE_TURNS);
    hide Deal, Inv, Waiting, Trip, Opening;
    var t := SALE_TURNS;
    PlayOne(Opening(EMPTY, JOBS), t);
    PlayOne(World(Trip(0, 0, map[], map[]), NO_SHOP, Waiting(Begin), {}), t[1..]);
    PlayOne(World(taken, NO_SHOP, Waiting(Begin), {}), t[1..][1..]);
    PlayOne(World(taken, BOOKED, Waiting(Begin), {}), t[1..][1..][1..]);
    PlayOne(World(taken, BOOKED, Waiting(Paying), {}), t[1..][1..][1..][1..]);
    PlayOne(World(taken, PAID, Waiting(Confirming), {}), t[1..][1..][1..][1..][1..]);
    PlayOne(World(sold, PAID, Waiting(Finishing), {}), t[1..][1..][1..][1..][1..][1..]);
  }

  lemma FullRefund()
    ensures Refundable(SERVICE_FEE, 100) && Refund(SERVICE_FEE, 100) == SERVICE_FEE
  {
    CancelLines(SERVICE_FEE, 100);
    RefundBounds(SERVICE_FEE, 100);
    hide Journal, CancelPostings;
  }

  lemma BothCancel()
    ensures Canceller(SoldWorld(), 1, 0) && Canceller(SoldWorld(), 2, 0)
    ensures RowOf(SoldWorld(), 1, 0) == RowOf(SoldWorld(), 2, 0) == RefundRow(0, SERVICE_FEE, true)
  {
    hide Refund, Refundable, Trip;
    BookingIsTicketed();
    FullRefund();
    assert SoldWorld().processes[1] == Process(CANCELS, Begin) && SoldWorld().processes[2] == Process(CANCELS, Begin);
  }

  /** A run from empty tables that books two refunds of one booking. */
  lemma SomeBookingIsRefundedTwice() returns (turns: seq<Turn>)
    ensures RefundsOf(Play(Opening(EMPTY, JOBS), turns).shop.refunds, 0) == 2
  {
    Sale();
    BothCancel();
    BookingIsTicketed();
    hide Inv, Deal, Canceller;
    var w := SoldWorld();
    var rest := OverlappingCancellationsRefundTwice(w, 1, 2, 0);
    turns := SALE_TURNS + rest;
    PlayAppends(Opening(EMPTY, JOBS), SALE_TURNS, rest);
    OneMoreRefund([], RowOf(w, 1, 0), 0);
    OneMoreRefund([RowOf(w, 1, 0)], RowOf(w, 2, 0), 0);
    assert [] + [RowOf(w, 1, 0)] + [RowOf(w, 2, 0)] == [] + [RowOf(w, 1, 0), RowOf(w, 2, 0)];
    assert [] + [RowOf(w, 1, 0)] == [RowOf(w, 1, 0)];
  }

  lemma OthersWait()
    ensures var w := SoldWorld();
      && |w.processes| == 5 && w.processes[3] == w.processes[4] == Process(RefundCallback(0), Begin)
      && w.shop.refunds == [] && 0 in w.shop.bookings && w.shop.bookings[0].status == TICKETED
  {
    BookingIsTicketed();
    hide Trip;
  }

  /** The first cancellation alone leaves a requested refund. */
  lemma CancelledOnce() returns (n: nat)
    ensures var w := Deal(Steps(SoldWorld(), 1, n), Run(1));
      && Inv(w) && w.shop.refunds == [RefundRow(0, SERVICE_FEE, true)] && |w.processes| == 5
      && w.processes[3] == w.processes[4] == Process(RefundCallback(0), Begin)
  {
    hide Inv, Deal, SoldWorld, Canceller, RowOf, Play;
    Sale();
    BothCancel();
    OthersWait();
    var w := SoldWorld();
    n := ToRefunding(w, 1, 0);
    var w1 := Steps(w, 1, n);
    SameCanceller(w, w1, 1, 0);
    CancellerBooks(w1, 1, 0);
    DealKeeps(w1, Run(1));
    assert [] + [RowOf(w1, 1, 0)] == [RowOf(w1, 1, 0)];
  }

  /** Both callbacks can read it. */
  lemma BothCanRead() returns (turns: seq<Turn>)
    ensures var w := Play(SoldWorld(), turns);
      Inv(w) && |w.shop.refunds| == 1 && w.shop.refunds[0].amount > 0 && Callback(w, 3, 0) && Callback(w, 4, 0)
  {
    hide Inv, Deal, SoldWorld, Play;
    var n := CancelledOnce();
    var w1 := Steps(SoldWorld(), 1, n);
    StepsPlay(SoldWorld(), 1, n);
    turns := seq(n, _ => Run(1)) + [Run(1)];
    PlayAppends(SoldWorld(), seq(n, _ => Run(1)), [Run(1)]);
    PlayOne(w1, [Run(1)]);
    PlayNothing(Deal(w1, Run(1)));
    assert [Run(1)][1..] == [];
  }

  lemma PlayNothing(w: World)
    ensures Play(w, []) == w
  {
  }

  lemma SameCanceller(w: World, w2: World, i: nat, b: BookingId)
    requires Canceller(w, i, b) && OnlyMoved(w, w2, i) && w2.processes[i].phase != Done
    ensures Canceller(w2, i, b) && RowOf(w2, i, b) == RowOf(w, i, b)
  {
  }

  /** A run from empty tables that discharges one refund twice. */
  lemma SomeRefundIsSettledTwice() returns (turns: seq<Turn>)
    ensures var shop := Play(Opening(EMPTY, JOBS), turns).shop;
      |shop.refunds| >= 1 && shop.refunds[0].amount > 0 && SettlementsOf(shop.journals, 0) >= 2
  {
    Sale();
    hide Inv, Deal, Play, SoldWorld, Callback, Opening;
    var cancel := BothCanRead();
    var w := Play(SoldWorld(), cancel);
    var rest := OverlappingCallbacksSettleTwice(w, 3, 4, 0);
    AmountStays(w, rest, 0);
    PlayAppends(SoldWorld(), cancel, rest);
    PlayAppends(Opening(EMPTY, JOBS), SALE_TURNS, cancel + rest);
    turns := SALE_TURNS + (cancel + rest);
  }

  lemma {:induction false} AmountStays(w: World, turns: seq<Turn>, n: nat)
    requires n < |w.shop.refunds|
    ensures n < |Play(w, turns).shop.refunds| && Play(w, turns).shop.refunds[n].amount == w.shop.refunds[n].amount
    decreases |turns|
  {
    hide Deal;
    if turns != [] {
      RowsStay(w, turns[0], n);
      AmountStays(Deal(w, turns[0]), turns[1..], n);
    }
  }

  const STRANDED := [Run(1), Run(1), Crash(1), Elsewhere(Take(2)), Elsewhere(OpConfirm(2))]

  const FREED: Holds := map[1 := Row(RELEASED)]
  const TWO := ONE[ItemKey(2, 0) := ITEM]

  /** The first cancellation is at `phase`. */
  function Cancelling(db: Db, phase: Phase, freed: set<BookingId>): World {
    World(db, ISSUED, Waiting(Done)[1 := Process(CANCELS, phase)], freed)
  }

  lemma CancellationStarts(db: Db)
    ensures Deal(World(db, ISSUED, Waiting(Done), {}), Run(1)) == Cancelling(db, Releasing, {})
  {
    BookingIsTicketed();
    assert Waiting(Done)[1] == Process(CANCELS, Begin);
    hide Waiting;
  }

  lemma CancellationReleases()
    ensures Deal(Cancelling(Trip(0, 1, map[1 := Row(CONFIRMED)], ONE), Releasing, {}), Run(1)) == Cancelling(Trip(0, 0, FREED, ONE), Refunding, {0})
  {
    hide Trip, Step;
    var w := Cancelling(Trip(0, 1, map[1 := Row(CONFIRMED)], ONE), Releasing, {});
    BookingIsTicketed();
    assert OnlySeat(ONE, 1);
    hide OnlySeat;
    Unsold(1, map[1 := Row(CONFIRMED)], ONE);
    assert map[1 := Row(CONFIRMED)][1 := Row(RELEASED)] == FREED && {} + {0} == {0};
    var ps := Waiting(Done);
    assert |ps| == 5 && ps[1 := Process(CANCELS, Releasing)][1 := Process(CANCELS, Refunding)] == ps[1 := Process(CANCELS, Refunding)];
    hide Waiting;
    ReleaseDeal(w, 1, 0);
    hide Deal;
  }

  lemma CancellationDies(db: Db)
    ensures Deal(Cancelling(db, Refunding, {0}), Crash(1)) == Cancelling(db, Done, {0})
  {
    var ps := Waiting(Done);
    assert |ps| == 5 && ps[1 := Process(CANCELS, Refunding)][1 := Process(CANCELS, Done)] == ps[1 := Process(CANCELS, Done)];
    hide Waiting;
  }

  lemma SeatIsSoldAgain()
    ensures var w := Cancelling(Trip(0, 0, FREED, ONE), Done, {0});
      var w2 := w.(db := Trip(0, 1, FREED[2 := Row(HELD)][2 := Row(CONFIRMED)], TWO));
      Deal(Deal(w, Elsewhere(Take(2))), Elsewhere(OpConfirm(2))) == w2 && Strands(w2.db, 1, 0, 1)
  {
    var w := Cancelling(Trip(0, 0, FREED, ONE), Done, {0});
    assert OnlySeat(TWO, 1) && OnlySeat(TWO, 2);
    hide OnlySeat, Trip, Step, Strands, Cancelling, Deal;
    Takes(2, FREED, ONE);
    OrdinaryTurn(w, Take(2));
    Confirms(2, FREED[2 := Row(HELD)], TWO);
    OrdinaryTurn(w.(db := Trip(1, 0, FREED[2 := Row(HELD)], TWO)), OpConfirm(2));
    Stranding(1, FREED[2 := Row(HELD)][2 := Row(CONFIRMED)], TWO);
  }

  /** The cancellation gives the seat back and dies; the seat is sold again; the booking is still TICKETED, and
      moving its passenger strands the other sale. */
  lemma SomeTicketStrands()
    ensures var w := Play(Opening(EMPTY, JOBS), SALE_TURNS + STRANDED);
      0 in w.shop.bookings && w.shop.bookings[0].status == TICKETED && Strands(w.db, w.shop.bookings[0].hold, 0, 1)
  {
    Sale();
    BookingIsTicketed();
    CancellationStarts(SoldWorld().db);
    CancellationReleases();
    CancellationDies(Trip(0, 0, FREED, ONE));
    SeatIsSoldAgain();
    var w0, w3 := SoldWorld(), Cancelling(Trip(0, 0, FREED, ONE), Done, {0});
    var w1, w2 := Cancelling(w0.db, Releasing, {}), Cancelling(Trip(0, 0, FREED, ONE), Refunding, {0});
    assert w3.shop == ISSUED;
    hide Trip, Strands, Deal, Cancelling, SoldWorld, Inv;
    PlayAppends(Opening(EMPTY, JOBS), SALE_TURNS, STRANDED);
    PlayOne(w0, STRANDED);
    PlayOne(w1, STRANDED[1..]);
    PlayOne(w2, STRANDED[1..][1..]);
    PlayOne(w3, STRANDED[1..][1..][1..]);
    PlayOne(Deal(w3, Elsewhere(Take(2))), STRANDED[1..][1..][1..][1..]);
  }
}

/** An offline sale that is ticketed and reported rejected. */
module OfflineWitnesses {
  import opened Wrappers
  import opened Bits
  import opened Inventory
  import opened Ownership
  import opened Ledger
  import opened SagaTables
  import opened CashDrawer
  import opened OfflineSales
  import OfflineRuns
  import opened TwoSeats

  const ALLOCATE := OpAllocate(0, 0, [0], 0, 1)

  /** A sale of the seat that counter 0 was allocated; there is no shift 9. */
  const QUEUED := Sale(1, 0, [0], 0, 1, SERVICE_FEE, Some(9), 1, 0)

  function Reserved(): State { State(Inventory.Run([TwoSeats.OPEN, ALLOCATE]).db, NO_SHOP, NO_DRAWERS, map[]) }

  lemma SeatIsReady()
    ensures AllReady(Trip(0, 0, map[], map[]).seats, 0, map[0 := 1], Block)
  {
    OneSegment();
    assert Ready(Block, SeatRow(0, 0, 0), 1);
    hide Ready;
  }

  lemma AllocatesSeat(db: Db)
    requires AllReady(db.seats, 0, map[0 := 1], Block)
    ensures AllocateQuota(db, 0, 0, [0], 0, 1).db == Allocated(db, 0, 0, map[0 := 1])
  {
    OneSegment();
    assert Each([0], 1) == map[0 := 1];
    hide Allocated, AllReady, SegmentMask, SeatEvents, Or, AndNot, Disjoint, Each;
  }

  lemma Allocates()
    ensures Step(Trip(0, 0, map[], map[]), ALLOCATE).db == Allocated(Trip(0, 0, map[], map[]), 0, 0, map[0 := 1])
  {
    hide AllocateQuota, Trip, AllReady, Allocated;
    SeatIsReady();
    AllocatesSeat(Trip(0, 0, map[], map[]));
  }

  lemma AllocatedIs(db: Db)
    requires db.quota == map[]
    ensures var db2 := Allocated(db, 0, 0, map[0 := 1]); db2.holds == db.holds && InQuota(db2, QuotaKey(0, 0, 0, 1))
  {
    hide Touch;
  }

  lemma SeatIsAllocated()
    ensures GuardedRun([TwoSeats.OPEN, ALLOCATE]) && InQuota(Reserved().db, QuotaKey(0, 0, 0, 1)) && Reserved().db.holds == map[]
  {
    assert Inventory.Run([]).db == EMPTY && GuardedRun([]);
    hide Inventory.Run, GuardedRun, Step, Allocated, InQuota;
    RunNext([], TwoSeats.OPEN);
    RunNext([TwoSeats.OPEN], ALLOCATE);
    assert [] + [TwoSeats.OPEN] == [TwoSeats.OPEN] && [TwoSeats.OPEN] + [ALLOCATE] == [TwoSeats.OPEN, ALLOCATE];
    Opens();
    Allocates();
    AllocatedIs(Trip(0, 0, map[], map[]));
  }

  lemma GetsTheSeat()
    ensures GetsTicket(Reserved(), 0, Delivery(QUEUED, Never, 0)) && !Usable(Reserved().drawers, QUEUED.shift)
  {
    SeatIsAllocated();
    OneSegment();
    hide InQuota, SegmentMask, Inventory.Run, GuardedRun, SellQuota;
    RunRefines([TwoSeats.OPEN, ALLOCATE]);
    SellIsExact(Reserved().db, OwnersOf([TwoSeats.OPEN, ALLOCATE]), 1, 0, 0, [0], 0, 1, 0);
  }

  /** Its seats are sold, the ticket is issued and the cash debited; the row says REJECTED. */
  lemma SomeTicketIsRejected(ds: seq<Delivery>)
    requires forall e :: e in ds ==> e.sale.ref == 1 || e.sale.booking != 0
    ensures var end := Flush(Reserved(), 0, [Delivery(QUEUED, Never, 0)] + ds);
      1 in end.refs && end.refs[1].rejected && IsTicketed(end.shop, 0)
  {
    GetsTheSeat();
    hide GetsTicket, Flush, Inventory.Run;
    RecordedSaleIff(Reserved(), 0, Delivery(QUEUED, Never, 0), ds);
  }

  lemma {:induction false} StepsArePlay(w: OfflineRuns.World, n: nat)
    ensures OfflineRuns.Steps(w, 0, n) == OfflineRuns.Play(w, seq(n, _ => OfflineRuns.Turn.Run(0, 0)))
    decreases n
  {
    if n > 0 {
      var turns := seq(n, _ => OfflineRuns.Turn.Run(0, 0));
      assert turns[1..] == seq(n - 1, _ => OfflineRuns.Turn.Run(0, 0));
      StepsArePlay(OfflineRuns.Deal(w, turns[0]), n - 1);
    }
  }

  /** The same in the machine of single commits. */
  lemma SomeRunRejectsATicket() returns (turns: seq<OfflineRuns.Turn>)
    ensures var st := OfflineRuns.Play(OfflineRuns.Alone(Reserved(), 0, [QUEUED], 0, OfflineRuns.Ready, []), turns).st;
      1 in st.refs && st.refs[1].rejected && IsTicketed(st.shop, 0)
  {
    SomeTicketIsRejected([]);
    var ds := [Delivery(QUEUED, Never, 0)];
    assert ds + [] == ds && ds[..0] == [];
    assert Flush(Reserved(), 0, ds) == Handle(Reserved(), 0, ds[0]).0;
    hide Handle, Reserved, OfflineRuns.Deal;
    var n, sold := OfflineRuns.AloneIsHandle(Reserved(), 0, [QUEUED], 0, [], 0);
    StepsArePlay(OfflineRuns.Alone(Reserved(), 0, [QUEUED], 0, OfflineRuns.Ready, []), n);
    turns := seq(n, _ => OfflineRuns.Turn.Run(0, 0));
  }
}

/** Runs from empty tables after which drawer and account 1001 disagree, though nobody died and no row was lost. */
module DrawerWitnesses {
  import opened Wrappers
  import opened Bits
  import opened Inventory
  import opened Ownership
  import opened Laws
  import opened Ledger
  import opened SagaTables
  import opened SagaRuns
  import opened CashDrawer
  import opened DrawerRuns
  import opened TwoSeats
  import opened SagaWitnesses

  const FROM_DRAWER := CounterSale(0, CASH)
  const FROM_BKASH := Webhook(0, PayKey(BKASH, 9), SERVICE_FEE, true, true)

  const CASHED := Pay(BOOKED, PayKey(CASH, 0), Payment(0, SERVICE_FEE))
  const CASH_SALE := SagaTables.Finalise(CASHED, 0, CounterPostings(SERVICE_FEE, true))

  /** The settlement in cash and the webhook of one booking, each at its phase. */
  function Both(db: Db, shop: Shop, cash: Phase, web: Phase): SagaRuns.World {
    SagaRuns.World.World(db, shop, [Process(FROM_DRAWER, cash), Process(FROM_BKASH, web)], {})
  }

  /** Shift 7 is named by the settlement in cash. */
  function Desk(saga: SagaRuns.World, d: Drawers, owes: bool, posted: int, counted: int, late: int): DrawerRuns.World {
    DrawerRuns.World.World(saga, d, [Settler(Some(7), owes, posted, counted, late), Settler(None, false, 0, 0, 0)])
  }

  function First(): DrawerRuns.World { DrawerRuns.Opening(EMPTY, [FROM_DRAWER, FROM_BKASH], [Some(7), None]) }

  const HELD_DB := Trip(1, 0, map[1 := Row(HELD)], ONE)
  const SOLD_DB := Trip(0, 1, map[1 := Row(CONFIRMED)], ONE)

  lemma FirstIs()
    ensures First() == Desk(Both(EMPTY, NO_SHOP, Begin, Begin), NO_DRAWERS, false, 0, 0, 0)
  {
    var w := First();
    assert w.saga.processes == [Process(FROM_DRAWER, Begin), Process(FROM_BKASH, Begin)];
    assert w.settlers == [Settler(Some(7), false, 0, 0, 0), Settler(None, false, 0, 0, 0)];
  }

  /** A turn of the saga that finalises nothing in cash. */
  lemma OtherTurn(w: DrawerRuns.World, t: SagaRuns.Turn)
    requires !t.Crash? && !(t.Run? && Finalises(w.saga, t.i))
    ensures DrawerRuns.Deal(w, Saga(t)) == w.(saga := SagaRuns.Deal(w.saga, t))
  {
    hide SagaRuns.Deal;
  }

  lemma PlayStep(w: DrawerRuns.World, t: DrawerRuns.Turn, rest: seq<DrawerRuns.Turn>)
    ensures DrawerRuns.Play(w, [t] + rest) == DrawerRuns.Play(DrawerRuns.Deal(w, t), rest)
  {
    assert ([t] + rest)[1..] == rest;
    hide DrawerRuns.Deal;
  }

  lemma Books(d: Drawers)
    ensures var w0, w1 := Desk(Both(EMPTY, NO_SHOP, Begin, Begin), d, false, 0, 0, 0), Desk(Both(HELD_DB, BOOKED, Begin, Begin), d, false, 0, 0, 0);
      DrawerRuns.Deal(DrawerRuns.Deal(DrawerRuns.Deal(w0, Saga(Elsewhere(TwoSeats.OPEN))), Saga(Elsewhere(Take(1)))), Saga(Create(0, BOOKING))) == w1
  {
    var w0 := Both(EMPTY, NO_SHOP, Begin, Begin);
    var w1, w2 := Both(Trip(0, 0, map[], map[]), NO_SHOP, Begin, Begin), Both(HELD_DB, NO_SHOP, Begin, Begin);
    assert Distinct([0]);
    assert SagaRuns.Deal(w2, Create(0, BOOKING)) == Both(HELD_DB, BOOKED, Begin, Begin);
    hide Step, Trip, Both;
    OrdinaryTurn(w0, TwoSeats.OPEN);
    OrdinaryTurn(w1, Take(1));
    Opens();
    Takes(1, map[], map[]);
    hide SagaRuns.Deal, DrawerRuns.Deal;
    OtherTurn(Desk(w0, d, false, 0, 0, 0), Elsewhere(TwoSeats.OPEN));
    OtherTurn(Desk(w1, d, false, 0, 0, 0), Elsewhere(Take(1)));
    OtherTurn(Desk(w2, d, false, 0, 0, 0), Create(0, BOOKING));
  }

  /** Booking 0 is on hold 1 and has not been paid by `key`. */
  predicate Unpaid(shop: Shop, key: PayKey) {
    0 in shop.bookings && shop.bookings[0] == BOOKING.(status := shop.bookings[0].status) && key !in shop.payments
  }

  const BY_CASH := PayKey(CASH, 0)
  const BY_BKASH := PayKey(BKASH, 9)
  const FEE_PAID := Payment(0, SERVICE_FEE)

  lemma CashPays(db: Db, shop: Shop, web: Phase)
    requires Unpaid(shop, BY_CASH)
    ensures shop.bookings[0].status == PAYMENT_PENDING ==> SagaRuns.Deal(Both(db, shop, Begin, web), Run(0)) == Both(db, shop, Paying, web)
    ensures SagaRuns.Deal(Both(db, shop, Paying, web), Run(0)) == Both(db, Pay(shop, BY_CASH, FEE_PAID), Confirming, web)
  {
  }

  lemma WebPays(db: Db, shop: Shop, cash: Phase)
    requires Unpaid(shop, BY_BKASH)
    ensures SagaRuns.Deal(Both(db, shop, cash, Begin), Run(1)) == Both(db, shop, cash, Paying)
    ensures SagaRuns.Deal(Both(db, shop, cash, Paying), Run(1)) == Both(db, Pay(shop, BY_BKASH, FEE_PAID), cash, Confirming)
  {
  }

  lemma ConfirmsHeld()
    ensures Step(HELD_DB, OpConfirm(1)).out == Ok && Step(HELD_DB, OpConfirm(1)).db == SOLD_DB
    ensures Step(SOLD_DB, OpConfirm(1)).out == Ok && Step(SOLD_DB, OpConfirm(1)).db == SOLD_DB
  {
    assert OnlySeat(ONE, 1);
    assert map[1 := Row(HELD)][1 := Row(CONFIRMED)] == map[1 := Row(CONFIRMED)];
    assert Step(SOLD_DB, OpConfirm(1)) == Refuse(SOLD_DB, Ok);
    hide Step, Trip, OnlySeat;
    Confirms(1, map[1 := Row(HELD)], ONE);
  }

  lemma SeatsConfirmed(db: Db, shop: Shop, cash: Phase, web: Phase)
    requires 0 in shop.bookings && shop.bookings[0].hold == 1 && db in {HELD_DB, SOLD_DB}
    ensures cash == Confirming ==> SagaRuns.Deal(Both(db, shop, cash, web), Run(0)) == Both(SOLD_DB, shop, Finishing, web)
    ensures web == Confirming ==> SagaRuns.Deal(Both(db, shop, cash, web), Run(1)) == Both(SOLD_DB, shop, cash, Finishing)
  {
    hide Step, Trip;
    ConfirmsHeld();
  }

  lemma Finishes(db: Db, shop: Shop, cash: Phase, web: Phase)
    requires 0 in shop.bookings && shop.bookings[0] == BOOKING.(status := shop.bookings[0].status)
    ensures cash == Finishing ==> SagaRuns.Deal(Both(db, shop, cash, web), Run(0))
                                  == Both(db, SagaTables.Finalise(shop, 0, CounterPostings(SERVICE_FEE, true)), Done, web)
    ensures web == Finishing ==> SagaRuns.Deal(Both(db, shop, cash, web), Run(1))
                                 == Both(db, SagaTables.Finalise(shop, 0, GatewayPostings(SERVICE_FEE)), cash, Done)
    ensures cash == Finishing ==> Finalises(Both(db, shop, cash, web), 0)
    ensures cash == Finishing ==> Gross(Both(db, shop, cash, web), 0) == if shop.bookings[0].status == PAYMENT_PENDING then SERVICE_FEE else 0
  {
    SaleIsBookedIff(SERVICE_FEE, SERVICE_FEE, true);
    hide Step, SagaTables.Finalise, CounterPostings, GatewayPostings, Journal;
  }

  /** The settlement finalises and owes its row. */
  lemma CashFinishes(db: Db, shop: Shop, web: Phase, d: Drawers)
    requires 0 in shop.bookings && shop.bookings[0] == BOOKING.(status := shop.bookings[0].status)
    ensures DrawerRuns.Deal(Desk(Both(db, shop, Finishing, web), d, false, 0, 0, 0), Saga(Run(0)))
         == Desk(Both(db, SagaTables.Finalise(shop, 0, CounterPostings(SERVICE_FEE, true)), Done, web), d, true,
                 if shop.bookings[0].status == PAYMENT_PENDING then SERVICE_FEE else 0, 0, 0)
  {
    Finishes(db, shop, Finishing, web);
    hide SagaRuns.Deal, SagaTables.Finalise, Finalises, Gross;
  }

  const SETTLES: seq<DrawerRuns.Turn> := [Saga(Run(0)), Saga(Run(0)), Saga(Run(0)), Saga(Run(0))]
  const BOOKS: seq<DrawerRuns.Turn> := [Saga(Elsewhere(TwoSeats.OPEN)), Saga(Elsewhere(Take(1))), Saga(Create(0, BOOKING))]

  lemma PlayThree(w: DrawerRuns.World, d: Drawers, rest: seq<DrawerRuns.Turn>)
    requires w == Desk(Both(EMPTY, NO_SHOP, Begin, Begin), d, false, 0, 0, 0)
    ensures DrawerRuns.Play(w, BOOKS + rest) == DrawerRuns.Play(Desk(Both(HELD_DB, BOOKED, Begin, Begin), d, false, 0, 0, 0), rest)
  {
    Books(d);
    hide DrawerRuns.Deal, DrawerRuns.Play;
    var w1 := DrawerRuns.Deal(w, BOOKS[0]);
    PlayStep(w, BOOKS[0], [BOOKS[1], BOOKS[2]] + rest);
    PlayStep(w1, BOOKS[1], [BOOKS[2]] + rest);
    PlayStep(DrawerRuns.Deal(w1, BOOKS[1]), BOOKS[2], rest);
    assert BOOKS + rest == [BOOKS[0]] + ([BOOKS[1], BOOKS[2]] + rest);
    assert [BOOKS[1], BOOKS[2]] + rest == [BOOKS[1]] + ([BOOKS[2]] + rest);
  }

  lemma DeskTurn(saga: SagaRuns.World, saga2: SagaRuns.World, d: Drawers, i: nat)
    requires SagaRuns.Deal(saga, Run(i)) == saga2 && !Finalises(saga, i)
    ensures DrawerRuns.Deal(Desk(saga, d, false, 0, 0, 0), Saga(Run(i))) == Desk(saga2, d, false, 0, 0, 0)
  {
    OtherTurn(Desk(saga, d, false, 0, 0, 0), Run(i));
    hide SagaRuns.Deal, DrawerRuns.Deal, Finalises;
  }

  lemma NotInCash(db: Db, shop: Shop, cash: Phase, web: Phase)
    ensures !Finalises(Both(db, shop, cash, web), 1) && (cash != Finishing ==> !Finalises(Both(db, shop, cash, web), 0))
  {
  }

  lemma CashSteps(d: Drawers)
    ensures var s0, s1 := Both(HELD_DB, BOOKED, Begin, Begin), Both(HELD_DB, BOOKED, Paying, Begin);
      var s2, s3 := Both(HELD_DB, CASHED, Confirming, Begin), Both(SOLD_DB, CASHED, Finishing, Begin);
      && DrawerRuns.Deal(Desk(s0, d, false, 0, 0, 0), Saga(Run(0))) == Desk(s1, d, false, 0, 0, 0)
      && DrawerRuns.Deal(Desk(s1, d, false, 0, 0, 0), Saga(Run(0))) == Desk(s2, d, false, 0, 0, 0)
      && DrawerRuns.Deal(Desk(s2, d, false, 0, 0, 0), Saga(Run(0))) == Desk(s3, d, false, 0, 0, 0)
      && DrawerRuns.Deal(Desk(s3, d, false, 0, 0, 0), Saga(Run(0))) == Desk(Both(SOLD_DB, CASH_SALE, Done, Begin), d, true, SERVICE_FEE, 0, 0)
  {
    CashPays(HELD_DB, BOOKED, Begin);
    assert CASHED.bookings == BOOKED.bookings;
    hide Trip, SagaTables.Finalise, Pay;
    SeatsConfirmed(HELD_DB, CASHED, Confirming, Begin);
    CashFinishes(SOLD_DB, CASHED, Begin, d);
    NotInCash(HELD_DB, BOOKED, Begin, Begin);
    NotInCash(HELD_DB, BOOKED, Paying, Begin);
    NotInCash(HELD_DB, CASHED, Confirming, Begin);
    hide SagaRuns.Deal, DrawerRuns.Deal, Both, Desk, Finalises;
    DeskTurn(Both(HELD_DB, BOOKED, Begin, Begin), Both(HELD_DB, BOOKED, Paying, Begin), d, 0);
    DeskTurn(Both(HELD_DB, BOOKED, Paying, Begin), Both(HELD_DB, CASHED, Confirming, Begin), d, 0);
    DeskTurn(Both(HELD_DB, CASHED, Confirming, Begin), Both(SOLD_DB, CASHED, Finishing, Begin), d, 0);
  }

  /** The settlement in cash, alone, up to its cash row. */
  lemma PlaySettles(d: Drawers, rest: seq<DrawerRuns.Turn>)
    ensures DrawerRuns.Play(Desk(Both(HELD_DB, BOOKED, Begin, Begin), d, false, 0, 0, 0), SETTLES + rest)
         == DrawerRuns.Play(Desk(Both(SOLD_DB, CASH_SALE, Done, Begin), d, true, SERVICE_FEE, 0, 0), rest)
  {
    hide DrawerRuns.Deal, DrawerRuns.Play, Both, Desk, HELD_DB, SOLD_DB, BOOKED, CASHED, CASH_SALE;
    CashSteps(d);
    var t, w0 := Saga(Run(0)), Desk(Both(HELD_DB, BOOKED, Begin, Begin), d, false, 0, 0, 0);
    var w1 := DrawerRuns.Deal(w0, t);
    var w2 := DrawerRuns.Deal(w1, t);
    PlayStep(w0, t, [t, t, t] + rest);
    PlayStep(w1, t, [t, t] + rest);
    PlayStep(w2, t, [t] + rest);
    PlayStep(DrawerRuns.Deal(w2, t), t, rest);
    assert SETTLES + rest == [t] + ([t, t, t] + rest) && [t, t, t] + rest == [t] + ([t, t] + rest) && [t, t] + rest == [t] + ([t] + rest);
  }

  const OPENED := Drawers(map[7 := Shift(ShiftStatus.OPEN, 0, 0, 0, 0)], [], [])
  const COUNTED_EARLY := Drawers(map[7 := Shift(BALANCED, 0, 0, 0, 0)], [], [])

  /** Float, movements and count of shift 7, and its part of account 1001. */
  ghost predicate Figures(w: DrawerRuns.World, drawer: int, counted: int, account: int) {
    && 7 in w.drawers.shifts && w.drawers.shifts[7].status != ShiftStatus.OPEN && w.drawers.shifts[7].float == 0
    && w.drawers.shifts[7].counted == counted && Movements(w.drawers.cash, At(7)) == drawer && CashAccount(w, At(7)) == account
  }

  lemma Opened()
    ensures DrawerRuns.Play(First(), [OpenShift(7, 0)] + BOOKS) == Desk(Both(HELD_DB, BOOKED, Begin, Begin), OPENED, false, 0, 0, 0)
  {
    FirstIs();
    hide First, Both;
    var w := Desk(Both(EMPTY, NO_SHOP, Begin, Begin), OPENED, false, 0, 0, 0);
    assert DrawerRuns.Deal(First(), OpenShift(7, 0)) == w;
    PlayStep(First(), OpenShift(7, 0), BOOKS);
    assert BOOKS + [] == BOOKS;
    PlayThree(w, OPENED, []);
    hide DrawerRuns.Deal;
  }

  lemma {:induction false} PlayAppends(w: DrawerRuns.World, a: seq<DrawerRuns.Turn>, b: seq<DrawerRuns.Turn>)
    ensures DrawerRuns.Play(w, a + b) == DrawerRuns.Play(DrawerRuns.Play(w, a), b)
    decreases |a|
  {
    hide DrawerRuns.Deal;
    if a == [] {
      assert a + b == b;
    } else {
      assert (a + b)[1..] == a[1..] + b;
      PlayAppends(DrawerRuns.Deal(w, a[0]), a[1..], b);
    }
  }

  const TO_THE_COUNTER := [OpenShift(7, 0)] + BOOKS

  lemma FirstOk(turns: seq<DrawerRuns.Turn>)
    ensures DrawerRuns.Inv(DrawerRuns.Play(First(), turns))
  {
    DrawerRuns.OpeningOk(EMPTY, [FROM_DRAWER, FROM_BKASH], [Some(7), None]);
    hide DrawerRuns.Inv, DrawerRuns.Play;
    DrawerRuns.PlayKeeps(First(), turns);
  }

  lemma SumTwo(f: Settler -> int, a: Settler, b: Settler)
    ensures Sum(f, [a, b]) == f(a) + f(b)
  {
    assert [a, b][..1] == [a] && [a][..0] == [] && [a, b][1] == b && [a][0] == a;
    assert Sum(f, [a]) == Sum(f, []) + f(a);
  }

  /** Tables of the sale, with the row that it owes. */
  function Sold(d: Drawers, owes: bool, late: int): DrawerRuns.World { Desk(Both(SOLD_DB, CASH_SALE, Done, Begin), d,
          owes, SERVICE_FEE, 0, late) }

  lemma SaleIs()
    ensures 0 in CASH_SALE.bookings && CASH_SALE.bookings[0].total == SERVICE_FEE
  {
    SaleIsBookedIff(SERVICE_FEE, SERVICE_FEE, true);
    hide Journal, CounterPostings, Issue;
  }

  lemma SoldFigures(d: Drawers, owes: bool, late: int)
    ensures Sum(Posted(At(7)), Sold(d, owes, late).settlers) == SERVICE_FEE
    ensures owes ==> DrawerRuns.Inserts(Sold(d, owes, late), 0)
  {
    SaleIs();
    hide Trip, SagaTables.Finalise, Pay;
    var w := Sold(d, owes, late);
    SumTwo(Posted(At(7)), w.settlers[0], w.settlers[1]);
    hide Sum;
  }

  lemma PlayedToTheRow()
    ensures DrawerRuns.Play(First(), TO_THE_COUNTER + SETTLES) == Sold(OPENED, true, 0)
  {
    hide OPENED, BOOKS, SETTLES, Desk, Both, First, DrawerRuns.Play;
    Opened();
    PlayAppends(First(), TO_THE_COUNTER, SETTLES);
    assert SETTLES + [] == SETTLES;
    PlaySettles(OPENED, []);
    PlayNothing(Sold(OPENED, true, 0));
  }

  /** The settlement has posted its journal and owes its row. */
  lemma Owing()
    ensures var w := DrawerRuns.Play(First(), TO_THE_COUNTER + SETTLES);
      && w == Sold(OPENED, true, 0) && DrawerRuns.Inv(w) && DrawerRuns.Inserts(w, 0)
      && CashAccount(w, At(7)) == SERVICE_FEE && Movements(w.drawers.cash, At(7)) == 0
  {
    SoldFigures(OPENED, true, 0);
    assert Variances(OPENED.writedowns, At(7)) == 0 == Movements(OPENED.cash, At(7));
    assert Sold(OPENED, true, 0).drawers == OPENED;
    PlayedToTheRow();
    FirstOk(TO_THE_COUNTER + SETTLES);
    hide OPENED, TO_THE_COUNTER, Sold, DrawerRuns.Inv, First, DrawerRuns.Play, DrawerRuns.Inserts, Sum, Variances, Movements;
  }

  lemma PlayNothing(w: DrawerRuns.World)
    ensures DrawerRuns.Play(w, []) == w
  {
  }

  /** The shift is closed between the journal and the cash row, and the clerk counts the cash that was taken. */
  lemma ClosedBetweenCommits()
    ensures Figures(DrawerRuns.Play(First(), TO_THE_COUNTER + SETTLES + [CloseShift(7, SERVICE_FEE), Insert(0)]),
                    2 * SERVICE_FEE, SERVICE_FEE, 2 * SERVICE_FEE)
  {
    Owing();
    var before := TO_THE_COUNTER + SETTLES;
    var w, turns := DrawerRuns.Play(First(), before), [CloseShift(7, SERVICE_FEE), Insert(0)];
    hide First, DrawerRuns.Inv, DrawerRuns.Play, Movements, CashAccount, Both, DrawerRuns.Inserts;
    PlayAppends(First(), before, turns);
    CloseBetweenCommits(w, 0, SERVICE_FEE);
    StaysClosed(w, SERVICE_FEE);
  }

  lemma StaysClosed(w: DrawerRuns.World, counted: int)
    requires 7 in w.drawers.shifts && w.drawers.shifts[7].status == ShiftStatus.OPEN
    ensures var d2 := DrawerRuns.Play(w, [CloseShift(7, counted), Insert(0)]).drawers;
      7 in d2.shifts && d2.shifts[7].status != ShiftStatus.OPEN && d2.shifts[7].float == w.drawers.shifts[7].float && d2.shifts[7].counted == counted
  {
    PlayStep(w, CloseShift(7, counted), [Insert(0)]);
    PlayStep(DrawerRuns.Deal(w, CloseShift(7, counted)), Insert(0), []);
    assert [CloseShift(7, counted)] + [Insert(0)] == [CloseShift(7, counted), Insert(0)] && [Insert(0)] + [] == [Insert(0)];
    hide Movements, VariancePostings, Lines;
  }

  /** A replayed sale names a shift that is closed already. */
  lemma ReplayedIntoAClosedShift()
    ensures Figures(DrawerRuns.Play(First(), [OpenShift(7, 0), CloseShift(7, 0)] + BOOKS + SETTLES + [Insert(0)]), SERVICE_FEE, 0, SERVICE_FEE)
  {
    FirstIs();
    var rest := BOOKS + (SETTLES + [Insert(0)]);
    assert [OpenShift(7, 0), CloseShift(7, 0)] + BOOKS + SETTLES + [Insert(0)] == [OpenShift(7, 0)] + ([CloseShift(7, 0)] + rest);
    hide First, Both;
    var e := Both(EMPTY, NO_SHOP, Begin, Begin);
    var w1, w2 := Desk(e, OPENED, false, 0, 0, 0), Desk(e, COUNTED_EARLY, false, 0, 0, 0);
    assert DrawerRuns.Deal(First(), OpenShift(7, 0)) == w1 && DrawerRuns.Deal(w1, CloseShift(7, 0)) == w2;
    PlayStep(First(), OpenShift(7, 0), [CloseShift(7, 0)] + rest);
    PlayStep(w1, CloseShift(7, 0), rest);
    PlayThree(w2, COUNTED_EARLY, SETTLES + [Insert(0)]);
    PlaySettles(COUNTED_EARLY, [Insert(0)]);
    LateRow();
    hide DrawerRuns.Deal;
  }

  lemma LateRow()
    ensures Figures(DrawerRuns.Play(Sold(COUNTED_EARLY, true, 0), [Insert(0)]), SERVICE_FEE, 0, SERVICE_FEE)
  {
    var row := CashRow(7, Some(0), SERVICE_FEE);
    var w, d := Sold(COUNTED_EARLY, true, 0), COUNTED_EARLY.(cash := [row]);
    SaleIs();
    SoldFigures(COUNTED_EARLY, true, 0);
    SoldFigures(d, false, SERVICE_FEE);
    MovementsNext([], row, At(7));
    assert [] + [row] == [row] && [Insert(0)] + [] == [Insert(0)];
    assert Variances([], At(7)) == 0 == Movements([], At(7));
    hide Sum, Variances, Movements, Trip, SagaTables.Finalise, Pay, DrawerRuns.Play;
    assert DrawerRuns.Deal(w, Insert(0)) == Sold(d, false, SERVICE_FEE);
    PlayStep(w, Insert(0), []);
    PlayNothing(Sold(d, false, SERVICE_FEE));
  }

  const WEB_PAID := Pay(BOOKED, BY_BKASH, FEE_PAID)
  const WEB_SALE := SagaTables.Finalise(WEB_PAID, 0, GatewayPostings(SERVICE_FEE))
  const BOTH_PAID := Pay(WEB_SALE, BY_CASH, FEE_PAID)

  const WEB_FIRST: seq<DrawerRuns.Turn> := [Saga(Run(0)), Saga(Run(1)), Saga(Run(1)), Saga(Run(1)), Saga(Run(1))]
  const CASH_LATER: seq<DrawerRuns.Turn> := [Saga(Run(0)), Saga(Run(0)), Saga(Run(0))]

  lemma WebSaleIs()
    ensures WEB_PAID.bookings == BOOKED.bookings && BOTH_PAID.bookings == WEB_SALE.bookings && Unpaid(WEB_SALE, BY_CASH)
    ensures BOTH_PAID.bookings == map[0 := BOOKING.(status := TICKETED)] && SagaTables.Finalise(BOTH_PAID, 0, CounterPostings(SERVICE_FEE, true)) == BOTH_PAID
  {
    SaleIsBookedIff(SERVICE_FEE, SERVICE_FEE, true);
    hide Journal, GatewayPostings, CounterPostings, Issue;
  }

  lemma WebSteps(d: Drawers)
    ensures var s0, s1, s2 := Both(HELD_DB, BOOKED, Begin, Begin), Both(HELD_DB, BOOKED, Paying, Begin), Both(HELD_DB, BOOKED, Paying, Paying);
      var s3, s4 := Both(HELD_DB, WEB_PAID, Paying, Confirming), Both(SOLD_DB, WEB_PAID, Paying, Finishing);
      && DrawerRuns.Deal(Desk(s0, d, false, 0, 0, 0), Saga(Run(0))) == Desk(s1, d, false, 0, 0, 0)
      && DrawerRuns.Deal(Desk(s1, d, false, 0, 0, 0), Saga(Run(1))) == Desk(s2, d, false, 0, 0, 0)
      && DrawerRuns.Deal(Desk(s2, d, false, 0, 0, 0), Saga(Run(1))) == Desk(s3, d, false, 0, 0, 0)
      && DrawerRuns.Deal(Desk(s3, d, false, 0, 0, 0), Saga(Run(1))) == Desk(s4, d, false, 0, 0, 0)
      && DrawerRuns.Deal(Desk(s4, d, false, 0, 0, 0), Saga(Run(1))) == Desk(Both(SOLD_DB, WEB_SALE, Paying, Done), d, false, 0, 0, 0)
  {
    CashPays(HELD_DB, BOOKED, Begin);
    WebPays(HELD_DB, BOOKED, Paying);
    WebSaleIs();
    hide Trip, SagaTables.Finalise, Pay;
    SeatsConfirmed(HELD_DB, WEB_PAID, Paying, Confirming);
    Finishes(SOLD_DB, WEB_PAID, Paying, Finishing);
    NotInCash(HELD_DB, BOOKED, Begin, Begin);
    NotInCash(HELD_DB, BOOKED, Paying, Begin);
    NotInCash(HELD_DB, BOOKED, Paying, Paying);
    NotInCash(HELD_DB, WEB_PAID, Paying, Confirming);
    NotInCash(SOLD_DB, WEB_PAID, Paying, Finishing);
    hide SagaRuns.Deal, DrawerRuns.Deal, Both, Desk, Finalises;
    DeskTurn(Both(HELD_DB, BOOKED, Begin, Begin), Both(HELD_DB, BOOKED, Paying, Begin), d, 0);
    DeskTurn(Both(HELD_DB, BOOKED, Paying, Begin), Both(HELD_DB, BOOKED, Paying, Paying), d, 1);
    DeskTurn(Both(HELD_DB, BOOKED, Paying, Paying), Both(HELD_DB, WEB_PAID, Paying, Confirming), d, 1);
    DeskTurn(Both(HELD_DB, WEB_PAID, Paying, Confirming), Both(SOLD_DB, WEB_PAID, Paying, Finishing), d, 1);
    DeskTurn(Both(SOLD_DB, WEB_PAID, Paying, Finishing), Both(SOLD_DB, WEB_SALE, Paying, Done), d, 1);
  }

  /** The settlement in cash has read PAYMENT_PENDING; the webhook pays, confirms and tickets. */
  lemma PlayWebFirst(d: Drawers)
    ensures DrawerRuns.Play(Desk(Both(HELD_DB, BOOKED, Begin, Begin), d, false, 0, 0, 0), WEB_FIRST)
         == Desk(Both(SOLD_DB, WEB_SALE, Paying, Done), d, false, 0, 0, 0)
  {
    hide DrawerRuns.Deal, DrawerRuns.Play, Both, Desk, HELD_DB, SOLD_DB, BOOKED, WEB_SALE;
    WebSteps(d);
    var t, w0 := Saga(Run(1)), Desk(Both(HELD_DB, BOOKED, Begin, Begin), d, false, 0, 0, 0);
    var w1 := DrawerRuns.Deal(w0, Saga(Run(0)));
    var w2 := DrawerRuns.Deal(w1, t);
    var w3 := DrawerRuns.Deal(w2, t);
    PlayStep(w0, Saga(Run(0)), [t, t, t, t]);
    PlayStep(w1, t, [t, t, t]);
    PlayStep(w2, t, [t, t]);
    PlayStep(w3, t, [t]);
    PlayStep(DrawerRuns.Deal(w3, t), t, []);
    PlayNothing(DrawerRuns.Deal(DrawerRuns.Deal(w3, t), t));
    assert WEB_FIRST == [Saga(Run(0))] + [t, t, t, t] && [t, t, t, t] == [t] + [t, t, t] && [t, t, t] == [t] + [t, t] && [t, t] == [t] + [t] && [t] == [t] + [];
  }

  lemma CashStepsLater(d: Drawers)
    ensures var s5, s6 := Both(SOLD_DB, WEB_SALE, Paying, Done), Both(SOLD_DB, BOTH_PAID, Confirming, Done);
      var s7 := Both(SOLD_DB, BOTH_PAID, Finishing, Done);
      && DrawerRuns.Deal(Desk(s5, d, false, 0, 0, 0), Saga(Run(0))) == Desk(s6, d, false, 0, 0, 0)
      && DrawerRuns.Deal(Desk(s6, d, false, 0, 0, 0), Saga(Run(0))) == Desk(s7, d, false, 0, 0, 0)
      && DrawerRuns.Deal(Desk(s7, d, false, 0, 0, 0), Saga(Run(0))) == Desk(Both(SOLD_DB, BOTH_PAID, Done, Done), d, true, 0, 0, 0)
  {
    WebSaleIs();
    CashPays(SOLD_DB, WEB_SALE, Done);
    hide Trip, SagaTables.Finalise, Pay;
    SeatsConfirmed(SOLD_DB, BOTH_PAID, Confirming, Done);
    CashFinishes(SOLD_DB, BOTH_PAID, Done, d);
    NotInCash(SOLD_DB, WEB_SALE, Paying, Done);
    NotInCash(SOLD_DB, BOTH_PAID, Confirming, Done);
    hide SagaRuns.Deal, DrawerRuns.Deal, Both, Desk, Finalises;
    DeskTurn(Both(SOLD_DB, WEB_SALE, Paying, Done), Both(SOLD_DB, BOTH_PAID, Confirming, Done), d, 0);
    DeskTurn(Both(SOLD_DB, BOTH_PAID, Confirming, Done), Both(SOLD_DB, BOTH_PAID, Finishing, Done), d, 0);
  }

  /** It inserts its own payment row, confirms again, and finds the booking finalised. */
  lemma PlayCashLater(d: Drawers)
    ensures DrawerRuns.Play(Desk(Both(SOLD_DB, WEB_SALE, Paying, Done), d, false, 0, 0, 0), CASH_LATER)
         == Desk(Both(SOLD_DB, BOTH_PAID, Done, Done), d, true, 0, 0, 0)
  {
    hide DrawerRuns.Deal, DrawerRuns.Play, Both, Desk, SOLD_DB, WEB_SALE, BOTH_PAID;
    CashStepsLater(d);
    var t, w0 := Saga(Run(0)), Desk(Both(SOLD_DB, WEB_SALE, Paying, Done), d, false, 0, 0, 0);
    var w1 := DrawerRuns.Deal(w0, t);
    PlayStep(w0, t, [t, t]);
    PlayStep(w1, t, [t]);
    PlayStep(DrawerRuns.Deal(w1, t), t, []);
    PlayNothing(DrawerRuns.Deal(DrawerRuns.Deal(w1, t), t));
    assert CASH_LATER == [t] + [t, t] && [t, t] == [t] + [t] && [t] == [t] + [];
  }

  const WEB_ROW := CashRow(7, Some(0), SERVICE_FEE)
  const WEB_CASH := OPENED.(cash := [WEB_ROW])
  const WEB_CLOSED := Drawers(map[7 := Shift(BALANCED, 0, SERVICE_FEE, SERVICE_FEE, 0)], [WEB_ROW], [])

  function WebSold(d: Drawers, owes: bool,
          counted: int): DrawerRuns.World { Desk(Both(SOLD_DB, BOTH_PAID, Done, Done), d, owes, 0, counted, 0) }

  lemma RowMoves()
    ensures Movements([WEB_ROW], At(7)) == SERVICE_FEE
  {
    MovementsNext([], WEB_ROW, At(7));
    assert [] + [WEB_ROW] == [WEB_ROW];
  }

  lemma RowIsInserted()
    ensures DrawerRuns.Deal(WebSold(OPENED, true, 0), Insert(0)) == WebSold(WEB_CASH, false, SERVICE_FEE)
  {
    WebSaleIs();
    hide Trip, BOTH_PAID;
    assert [] + [WEB_ROW] == [WEB_ROW];
  }

  lemma CountIsExact()
    ensures DrawerRuns.Deal(WebSold(WEB_CASH, false, SERVICE_FEE), CloseShift(7, SERVICE_FEE)) == WebSold(WEB_CLOSED, false, SERVICE_FEE)
  {
    RowMoves();
    hide Both, Movements;
    assert OPENED.shifts[7 := WEB_CLOSED.shifts[7]] == WEB_CLOSED.shifts;
  }

  lemma NothingPosted()
    ensures CashAccount(WebSold(WEB_CLOSED, false, SERVICE_FEE), At(7)) == 0
  {
    hide Both;
    var w := WebSold(WEB_CLOSED, false, SERVICE_FEE);
    SumTwo(Posted(At(7)), w.settlers[0], w.settlers[1]);
    hide Sum;
  }

  /** A row without a journal, counted: the account did not move, the drawer did. */
  lemma RowWithoutJournal()
    ensures Figures(DrawerRuns.Play(WebSold(OPENED, true, 0), [Insert(0), CloseShift(7, SERVICE_FEE)]), SERVICE_FEE, SERVICE_FEE, 0)
  {
    RowIsInserted();
    CountIsExact();
    RowMoves();
    NothingPosted();
    hide DrawerRuns.Deal, DrawerRuns.Play, Both, CashAccount, Movements;
    PlayStep(WebSold(OPENED, true, 0), Insert(0), [CloseShift(7, SERVICE_FEE)]);
    PlayStep(WebSold(WEB_CASH, false, SERVICE_FEE), CloseShift(7, SERVICE_FEE), []);
    PlayNothing(WebSold(WEB_CLOSED, false, SERVICE_FEE));
    assert [CloseShift(7, SERVICE_FEE)] + [] == [CloseShift(7, SERVICE_FEE)];
    assert [Insert(0)] + [CloseShift(7, SERVICE_FEE)] == [Insert(0), CloseShift(7, SERVICE_FEE)];
  }

  /** A webhook finalises the booking of a settlement in cash that is under way. */
  lemma WebhookFinalisesFirst()
    ensures Figures(DrawerRuns.Play(First(), TO_THE_COUNTER + (WEB_FIRST + (CASH_LATER + [Insert(0), CloseShift(7, SERVICE_FEE)]))),
                    SERVICE_FEE, SERVICE_FEE, 0)
  {
    var last := [Insert(0), CloseShift(7, SERVICE_FEE)];
    var s0, s5 := Both(HELD_DB, BOOKED, Begin, Begin), Both(SOLD_DB, WEB_SALE, Paying, Done);
    hide Trip, Both, BOTH_PAID, WEB_SALE, Figures, DrawerRuns.Play, First, BOOKS, WEB_FIRST, CASH_LATER;
    Opened();
    PlayAppends(First(), TO_THE_COUNTER, WEB_FIRST + (CASH_LATER + last));
    PlayAppends(Desk(s0, OPENED, false, 0, 0, 0), WEB_FIRST, CASH_LATER + last);
    PlayWebFirst(OPENED);
    PlayAppends(Desk(s5, OPENED, false, 0, 0, 0), CASH_LATER, last);
    PlayCashLater(OPENED);
    RowWithoutJournal();
  }
}
