/** Flushes of the offline queue that overlap: several requests, with the same or different queues, whose
    commits mix with each other, with every inventory operation, and with crashes. */
module OfflineRuns {
  import opened Wrappers
  import opened Inventory
  import opened Ownership
  import opened Ledger
  import opened SagaTables
  import opened CashDrawer
  import opened OfflineSales
  import Laws

  /** Where a request stands with the sale it is at, between two commits. */
  datatype Phase = Ready | Claimed | Seated | Created | Paid | Confirmed | Issued | Drawn | Refused | Gone

  /** One request; each sale carries the ids that this request draws for it. */
  datatype Flusher = Flusher(counter: CounterId, queue: seq<Sale>, at: nat, phase: Phase)

  /** `sold` is history: the references whose sale was given seats, in that order. */
  datatype World = World(st: State, flushers: seq<Flusher>, sold: seq<Ref>)

  datatype Turn =
    | Run(i: nat, now: int) | Crash(i: nat) | Elsewhere(op: Op)
    | OpenShift(s: ShiftId, float: nat) | CloseShift(s: ShiftId, counted: int)

  predicate Busy(f: Flusher) { f.at < |f.queue| && f.phase != Ready && f.phase != Gone }

  function SaleOf(f: Flusher): Sale
    requires f.at < |f.queue|
  {
    f.queue[f.at]
  }

  function Goto(w: World, i: nat, phase: Phase): World
    requires i < |w.flushers|
  {
    w.(flushers := w.flushers[i := w.flushers[i].(phase := phase)])
  }

  function Next(w: World, i: nat): World
    requires i < |w.flushers|
  {
    w.(flushers := w.flushers[i := w.flushers[i].(at := w.flushers[i].at + 1, phase := Ready)])
  }

  /** One statement or transaction of replayOne, or of the loop around it. */
  function Advance(w: World, i: nat, now: int): World
    requires i < |w.flushers|
  {
    var f, st := w.flushers[i], w.st;
    if f.at >= |f.queue| then w
    else
      var sale := SaleOf(f);
      match f.phase
      case Ready =>
        if sale.ref in st.refs then Next(w, i) else Goto(w, i, Claimed).(st := st.(refs := st.refs[sale.ref := CLAIMED]))
      case Claimed =>
        var r := Step(st.db, OpSell(sale.hold, f.counter, sale.trip, sale.seats, sale.board, sale.drop, now));
        if r.out == Ok then Goto(w, i, Seated).(st := st.(db := r.db), sold := w.sold + [sale.ref]) else Goto(w, i, Refused)
      case Seated =>
        Goto(w, i, Created).(st := st.(shop := Create(st.shop, sale.booking, sale.hold, sale.seats, sale.total)))
      case Created =>
        var key, p := PayKey(CASH, sale.booking), Payment(sale.booking, sale.total);
        if Inserts(st.shop, key, p) then Goto(w, i, Paid).(st := st.(shop := Pay(st.shop, key, p))) else Goto(w, i, Refused)
      case Paid =>
        var r := Step(st.db, OpConfirm(sale.hold));
        Goto(w, i, if r.out == Ok then Confirmed else Refused).(st := st.(db := r.db))
      case Confirmed =>
        var shop := SagaTables.Finalise(st.shop, sale.booking, CounterPostings(sale.total, true));
        Goto(w, i, if IsTicketed(shop, sale.booking) then Issued else Refused).(st := st.(shop := shop))
      case Issued =>
        if Usable(st.drawers, sale.shift)
        then Goto(w, i, Drawn).(st := st.(drawers := Draw(st.drawers, sale.shift, sale.booking, sale.total))) else Goto(w, i, Refused)
      case Drawn => Next(w, i).(st := st.(refs := st.refs[sale.ref := Row(false, Some(sale.booking))]))
      case Refused => Next(w, i).(st := st.(refs := st.refs[sale.ref := Row(true, None)]))
      case Gone => w
  }

  function Deal(w: World, t: Turn): World {
    match t
    case Run(i, now) => if i < |w.flushers| then Advance(w, i, now) else w
    case Crash(i) => if i < |w.flushers| then Goto(w, i, Gone) else w
    case Elsewhere(op) => if Guarded(w.st.db, op) then w.(st := w.st.(db := Step(w.st.db, op).db)) else w
    case OpenShift(s, float) => w.(st := w.st.(drawers := Open(w.st.drawers, s, float)))
    case CloseShift(s, counted) => w.(st := w.st.(drawers := Close(w.st.drawers, s, counted)))
  }

  function Play(w: World, turns: seq<Turn>): World
    decreases |turns|
  {
    if turns == [] then w else Play(Deal(w, turns[0]), turns[1..])
  }

  // ---- the invariant ------------------------------------------------------------------------

  /** The booking id that request `i` draws for its `k`-th sale, if it has not used it yet. */
  predicate Draws(w: World, i: nat, k: nat, b: BookingId) {
    && i < |w.flushers| && w.flushers[i].at <= k < |w.flushers[i].queue| && w.flushers[i].queue[k].booking == b
    && w.flushers[i].phase != Gone
    && (k == w.flushers[i].at ==> w.flushers[i].phase in {Ready, Claimed, Seated})
  }

  /** The booking that request `i` is working on. */
  predicate WorksOn(w: World, i: nat, b: BookingId) {
    i < |w.flushers| && Busy(w.flushers[i]) && SaleOf(w.flushers[i]).booking == b && w.flushers[i].phase in {Created, Paid, Confirmed, Issued, Drawn, Refused}
  }

  /** Ids that are drawn are new and drawn once. */
  ghost predicate FreshIds(w: World) {
    && (forall i: nat, k: nat, b: BookingId :: Draws(w, i, k, b) ==> b !in w.st.shop.bookings)
    && (forall i: nat, k: nat, j: nat, l: nat, b: BookingId :: Draws(w, i, k, b) && Draws(w, j, l, b) ==> i == j && k == l)
    && (forall i: nat, k: nat, j: nat, b: BookingId :: Draws(w, i, k, b) ==> !WorksOn(w, j, b))
    && (forall i: nat, j: nat, b: BookingId :: i != j && WorksOn(w, i, b) ==> !WorksOn(w, j, b))
  }

  ghost predicate FlusherOk(w: World, i: nat) {
    i < |w.flushers| && Busy(w.flushers[i]) ==>
      var f, sale := w.flushers[i], SaleOf(w.flushers[i]);
      && sale.ref in w.st.refs && w.st.refs[sale.ref] == CLAIMED
      && (f.phase == Claimed ==> sale.ref !in w.sold)
      && (f.phase in {Issued, Drawn} ==> IsTicketed(w.st.shop, sale.booking))
  }

  /** No reference is being worked on by two requests. */
  ghost predicate OnePerRef(w: World) {
    forall i: nat, j: nat :: i < j < |w.flushers| && Busy(w.flushers[i]) && Busy(w.flushers[j]) ==>
      SaleOf(w.flushers[i]).ref != SaleOf(w.flushers[j]).ref
  }

  /** A row that names a booking names a TICKETED one. */
  ghost predicate RowOk(st: State, ref: Ref) {
    ref in st.refs && st.refs[ref].booking.Some? ==> !st.refs[ref].rejected && IsTicketed(st.shop, st.refs[ref].booking.value)
  }

  ghost predicate Inv(w: World) {
    && Distinct(w.sold) && (forall ref :: ref in w.sold ==> ref in w.st.refs)
    && OnePerRef(w) && (forall i: nat :: FlusherOk(w, i)) && (forall ref: Ref :: RowOk(w.st, ref))
  }

  // ---- one step -----------------------------------------------------------------------------

  /** A TICKETED booking whose id nobody draws again stays TICKETED. */
  lemma TicketStays(w: World, t: Turn, b: BookingId)
    requires IsTicketed(w.st.shop, b) && forall i: nat, k: nat :: !Draws(w, i, k, b)
    ensures IsTicketed(Deal(w, t).st.shop, b)
  {
    hide Step, CounterPostings, Journal, Issue;
    if t.Run? && t.i < |w.flushers| && w.flushers[t.i].at < |w.flushers[t.i].queue| { assert !Draws(w, t.i, w.flushers[t.i].at, b); }
  }

  lemma TakenIsNotDrawn(w: World, b: BookingId)
    requires FreshIds(w) && b in w.st.shop.bookings
    ensures forall i: nat, k: nat :: !Draws(w, i, k, b)
  {
  }

  lemma OthersStay(w: World, t: Turn, i: nat)
    requires i < |w.flushers| && !(t.Run? && t.i == i) && t != Crash(i)
    ensures i < |Deal(w, t).flushers| && Deal(w, t).flushers[i] == w.flushers[i]
  {
    hide Step;
  }

  /** The row of a reference changes only by the request that works on it. */
  lemma RowStays(w: World, t: Turn, ref: Ref)
    requires ref in w.st.refs && (forall i: nat :: FlusherOk(w, i))
    requires forall i: nat :: i < |w.flushers| && Busy(w.flushers[i]) && SaleOf(w.flushers[i]).ref == ref ==> !(t.Run? && t.i == i)
    ensures ref in Deal(w, t).st.refs && Deal(w, t).st.refs[ref] == w.st.refs[ref]
  {
    hide Step, CounterPostings, Journal, Issue;
  }

  lemma SoldOnce(w: World, t: Turn)
    requires Inv(w)
    ensures Distinct(Deal(w, t).sold) && (forall ref :: ref in w.st.refs ==> ref in Deal(w, t).st.refs)
    ensures forall ref :: ref in Deal(w, t).sold ==> ref in Deal(w, t).st.refs
  {
    hide Step, CounterPostings, Journal, Issue;
    if t.Run? && t.i < |w.flushers| { assert FlusherOk(w, t.i); }
  }

  lemma OwnStep(w: World, i: nat, now: int)
    requires Inv(w) && FreshIds(w) && i < |w.flushers|
    ensures FlusherOk(Deal(w, Run(i, now)), i)
  {
    hide Step, CounterPostings, Journal, Issue, Draw, Usable, Create, Pay;
    assert FlusherOk(w, i);
    hide Inv, OnePerRef, RowOk;
  }

  lemma FlusherStays(w: World, t: Turn, i: nat)
    requires Inv(w) && FreshIds(w)
    ensures FlusherOk(Deal(w, t), i)
  {
    if i < |w.flushers| && !(t.Run? && t.i == i) && t != Crash(i) {
      OthersStay(w, t, i);
      var f := w.flushers[i];
      assert FlusherOk(w, i);
      if Busy(f) {
        RowStays(w, t, SaleOf(f).ref);
        SoldGrows(w, t, SaleOf(f).ref);
        if f.phase in {Issued, Drawn} {
          TakenIsNotDrawn(w, SaleOf(f).booking);
          TicketStays(w, t, SaleOf(f).booking);
        }
      }
      hide Deal, FreshIds;
    } else if t.Run? && t.i == i && i < |w.flushers| {
      OwnStep(w, i, t.now);
    } else {
      SameCount(w, t);
    }
  }

  lemma SameCount(w: World, t: Turn)
    ensures |Deal(w, t).flushers| == |w.flushers|
    ensures forall i :: 0 <= i < |w.flushers| && t == Crash(i) ==> Deal(w, t).flushers[i].phase == Gone
  {
    hide Step;
  }

  /** A reference joins `sold` only by the request that works on it. */
  lemma SoldGrows(w: World, t: Turn, ref: Ref)
    requires OnePerRef(w) && exists i: nat :: i < |w.flushers| && Busy(w.flushers[i]) && SaleOf(w.flushers[i]).ref == ref && !(t.Run? && t.i == i)
    ensures ref in Deal(w, t).sold ==> ref in w.sold
  {
    hide Step, CounterPostings, Journal, Issue;
    var i: nat :| i < |w.flushers| && Busy(w.flushers[i]) && SaleOf(w.flushers[i]).ref == ref && !(t.Run? && t.i == i);
    if t.Run? && t.i < |w.flushers| { assert i != t.i; }
  }

  /** A request stays at its sale, or goes on to the next. */
  lemma FlusherStep(w: World, t: Turn, i: nat)
    requires i < |Deal(w, t).flushers|
    ensures i < |w.flushers| && Deal(w, t).flushers[i].queue == w.flushers[i].queue
    ensures var f, f2 := w.flushers[i], Deal(w, t).flushers[i];
      || f2 == f || f2.phase == Gone
      || (t.Run? && t.i == i && f.at < |f.queue| && f2 == f.(at := f.at + 1, phase := Ready) && f.phase in {Ready, Drawn, Refused})
      || (t.Run? && t.i == i && f2.at == f.at < |f.queue| && Follows(f.phase, f2.phase) && (f.phase == Ready ==> f.queue[f.at].ref !in w.st.refs))
  {
    hide Step, CounterPostings, Journal, Issue, Inserts, IsTicketed, Create, Pay, Finalise;
  }

  predicate Follows(p: Phase, q: Phase) {
    match p
    case Ready => q == Claimed
    case Claimed => q in {Seated, Refused}
    case Seated => q == Created
    case Created => q in {Paid, Refused}
    case Paid => q in {Confirmed, Refused}
    case Confirmed => q in {Issued, Refused}
    case Issued => q in {Drawn, Refused}
    case _ => false
  }

  /** Who is busy was busy with the same sale, or has just claimed a reference that nobody had. */
  lemma BusyBefore(w: World, t: Turn, i: nat)
    requires i < |Deal(w, t).flushers| && Busy(Deal(w, t).flushers[i])
    ensures i < |w.flushers| && w.flushers[i].at < |w.flushers[i].queue| && SaleOf(Deal(w, t).flushers[i]) == SaleOf(w.flushers[i])
    ensures Busy(w.flushers[i]) || (t.Run? && t.i == i && SaleOf(w.flushers[i]).ref !in w.st.refs)
  {
    FlusherStep(w, t, i);
    hide Deal;
  }

  lemma NewClaimIsApart(w: World, t: Turn)
    requires Inv(w)
    ensures OnePerRef(Deal(w, t))
  {
    var w2 := Deal(w, t);
    forall i: nat, j: nat | i < j < |w2.flushers| && Busy(w2.flushers[i]) && Busy(w2.flushers[j])
      ensures SaleOf(w2.flushers[i]).ref != SaleOf(w2.flushers[j]).ref
    {
      BusyBefore(w, t, i);
      BusyBefore(w, t, j);
      assert FlusherOk(w, i) && FlusherOk(w, j);
    }
    hide Deal, RowOk, Busy;
  }

  lemma RecordStays(w: World, t: Turn, ref: Ref)
    requires Inv(w) && FreshIds(w)
    ensures RowOk(Deal(w, t).st, ref)
  {
    assert RowOk(w.st, ref);
    if ref in w.st.refs && w.st.refs[ref].booking.Some? {
      var b := w.st.refs[ref].booking.value;
      TakenIsNotDrawn(w, b);
      TicketStays(w, t, b);
    }
    if t.Run? && t.i < |w.flushers| { assert FlusherOk(w, t.i); }
    hide Step, CounterPostings, Journal, Issue, FreshIds, Create, Pay;
  }

  lemma DealKeeps(w: World, t: Turn)
    requires Inv(w) && FreshIds(w)
    ensures Inv(Deal(w, t))
  {
    SoldOnce(w, t);
    NewClaimIsApart(w, t);
    forall i: nat ensures FlusherOk(Deal(w, t), i) { FlusherStays(w, t, i); }
    forall ref: Ref ensures RowOk(Deal(w, t).st, ref) { RecordStays(w, t, ref); }
    hide Deal, FreshIds, OnePerRef, FlusherOk, RowOk;
  }

  // ---- the ids ------------------------------------------------------------------------------

  lemma DrawnBefore(w: World, t: Turn, i: nat, k: nat, b: BookingId)
    requires Draws(Deal(w, t), i, k, b)
    ensures Draws(w, i, k, b)
  {
    FlusherStep(w, t, i);
    hide Deal;
  }

  /** A request starts to work on a booking by using the id it drew. */
  predicate Starts(w: World, t: Turn, i: nat, b: BookingId) {
    t.Run? && t.i == i && i < |w.flushers| && Draws(w, i, w.flushers[i].at, b)
  }

  lemma WorkedBefore(w: World, t: Turn, i: nat, b: BookingId)
    requires WorksOn(Deal(w, t), i, b)
    ensures i < |w.flushers| && i < |Deal(w, t).flushers| && Deal(w, t).flushers[i].at == w.flushers[i].at
    ensures WorksOn(w, i, b) || Starts(w, t, i, b)
  {
    FlusherStep(w, t, i);
    hide Deal;
  }

  lemma NewBooking(w: World, t: Turn, b: BookingId)
    requires b in Deal(w, t).st.shop.bookings && b !in w.st.shop.bookings
    ensures t.Run? && Starts(w, t, t.i, b) && WorksOn(Deal(w, t), t.i, b)
  {
    hide Step, CounterPostings, Journal, Issue;
  }

  lemma IdsStayFresh(w: World, t: Turn)
    requires FreshIds(w)
    ensures FreshIds(Deal(w, t))
  {
    hide Deal, Draws, WorksOn;
    var w2 := Deal(w, t);
    forall i: nat, k: nat, b: BookingId ensures Draws(w2, i, k, b) ==> Draws(w, i, k, b) {
      if Draws(w2, i, k, b) { DrawnBefore(w, t, i, k, b); }
    }
    forall i: nat, b: BookingId ensures WorksOn(w2, i, b) ==> WorksOn(w, i, b) || Starts(w, t, i, b) {
      if WorksOn(w2, i, b) { WorkedBefore(w, t, i, b); }
    }
    forall i: nat, k: nat, j: nat, b: BookingId ensures Draws(w2, i, k, b) ==> !WorksOn(w2, j, b) {
      StartedIsNotDrawn(w, t, i, k, j, b);
    }
    forall i: nat, k: nat, b: BookingId ensures Draws(w2, i, k, b) ==> b !in w2.st.shop.bookings {
      if b in w2.st.shop.bookings && b !in w.st.shop.bookings { NewBooking(w, t, b); }
    }
  }

  lemma StartedIsNotDrawn(w: World, t: Turn, i: nat, k: nat, j: nat, b: BookingId)
    requires FreshIds(w)
    ensures Draws(Deal(w, t), i, k, b) ==> !WorksOn(Deal(w, t), j, b)
  {
    var w2 := Deal(w, t);
    if WorksOn(w2, j, b) { WorkedBefore(w, t, j, b); }
    hide Deal;
    assert Draws(w2, i, k, b) && i == j ==> k != w2.flushers[j].at || !WorksOn(w2, j, b);
    if Draws(w2, i, k, b) { DrawnBefore(w, t, i, k, b); }
  }

  // ---- the cash -----------------------------------------------------------------------------

  /** No booking has two cash rows, and one that somebody works on has none before the statement that inserts it. */
  ghost predicate CashOk(w: World) {
    && RowsApart(w.st.drawers.cash)
    && forall n: nat :: n < |w.st.drawers.cash| && w.st.drawers.cash[n].booking.Some? ==> CashRowOk(w, w.st.drawers.cash[n].booking.value)
  }

  ghost predicate CashRowOk(w: World, b: BookingId) {
    b in w.st.shop.bookings && forall i: nat :: WorksOn(w, i, b) ==> w.flushers[i].phase in {Drawn, Refused}
  }

  lemma BookingsStay(w: World, t: Turn, b: BookingId)
    requires b in w.st.shop.bookings
    ensures b in Deal(w, t).st.shop.bookings
  {
    hide Step, CounterPostings, Journal, Issue;
  }

  lemma CashRowStays(w: World, t: Turn, b: BookingId)
    requires FreshIds(w) && CashRowOk(w, b)
    ensures CashRowOk(Deal(w, t), b)
  {
    BookingsStay(w, t, b);
    var w2 := Deal(w, t);
    forall i: nat | WorksOn(w2, i, b) ensures w2.flushers[i].phase in {Drawn, Refused} {
      WorkedBefore(w, t, i, b);
      FlusherStep(w, t, i);
    }
    hide Deal;
  }

  /** A request inserts the row of the sale it is at. */
  predicate Inserting(w: World, t: Turn) {
    && t.Run? && t.i < |w.flushers| && w.flushers[t.i].at < |w.flushers[t.i].queue| && w.flushers[t.i].phase == Issued
  }

  lemma NewCash(w: World, t: Turn)
    ensures var cash, cash2 := w.st.drawers.cash, Deal(w, t).st.drawers.cash;
      && (cash2 == cash || (|cash2| == |cash| + 1 && cash2[..|cash|] == cash))
      && (cash2 != cash && cash2[|cash|].booking.Some? ==> Inserting(w, t) && cash2[|cash|].booking.value == SaleOf(w.flushers[t.i]).booking)
      && (Inserting(w, t) ==> |Deal(w, t).flushers| == |w.flushers| && Deal(w, t).flushers[t.i].phase in {Drawn, Refused})
  {
    hide Step, CounterPostings, Journal, Issue, Inserts, IsTicketed, Create, Pay, Finalise, Movements, VariancePostings, Lines;
  }

  lemma InsertedRowOk(w: World, t: Turn)
    requires Inv(w) && FreshIds(w) && CashOk(w) && Inserting(w, t)
    ensures var b := SaleOf(w.flushers[t.i]).booking;
      CashRowOk(Deal(w, t), b) && forall n: nat :: n < |w.st.drawers.cash| ==> w.st.drawers.cash[n].booking != Some(b)
  {
    var b, w2 := SaleOf(w.flushers[t.i]).booking, Deal(w, t);
    assert FlusherOk(w, t.i) && WorksOn(w, t.i, b);
    BookingsStay(w, t, b);
    NewCash(w, t);
    forall i: nat | WorksOn(w2, i, b) ensures w2.flushers[i].phase in {Drawn, Refused} {
      WorkedBefore(w, t, i, b);
      assert i != t.i ==> !WorksOn(w, i, b);
    }
    hide Deal;
  }

  lemma CashKeeps(w: World, t: Turn)
    requires Inv(w) && FreshIds(w) && CashOk(w)
    ensures CashOk(Deal(w, t))
  {
    var cash, cash2 := w.st.drawers.cash, Deal(w, t).st.drawers.cash;
    NewCash(w, t);
    if Inserting(w, t) { InsertedRowOk(w, t); }
    hide Deal, Inserting, CashRowOk, Inv;
    forall n: nat | n < |cash2| && cash2[n].booking.Some? ensures CashRowOk(Deal(w, t), cash2[n].booking.value) {
      if n < |cash| {
        assert cash2[..|cash|][n] == cash[n];
        CashRowStays(w, t, cash[n].booking.value);
      }
    }
    forall m, n | 0 <= m < n < |cash2| && cash2[m].booking.Some? ensures cash2[m].booking != cash2[n].booking {
      assert cash2[..|cash|][m] == cash[m];
      if n < |cash| { assert cash2[..|cash|][n] == cash[n]; }
    }
  }

  // ---- the theorem --------------------------------------------------------------------------

  lemma OpOf(w: World, t: Turn) returns (op: Op)
    requires Deal(w, t).st.db != w.st.db
    ensures Guarded(w.st.db, op) && Deal(w, t).st.db == Step(w.st.db, op).db
  {
    hide Step;
    if t.Elsewhere? {
      op := t.op;
    } else {
      var f := w.flushers[t.i];
      var sale := SaleOf(f);
      op := if f.phase == Paid then OpConfirm(sale.hold) else OpSell(sale.hold, f.counter, sale.trip, sale.seats, sale.board, sale.drop, t.now);
    }
  }

  lemma DealRefines(w: World, own: Owners, t: Turn) returns (own2: Owners)
    requires Refines(w.st.db, own)
    ensures Refines(Deal(w, t).st.db, own2)
  {
    hide Refines, Deal, After;
    own2 := own;
    if Deal(w, t).st.db != w.st.db {
      var op := OpOf(w, t);
      StepRefines(w.st.db, own, op);
      if Step(w.st.db, op).out == Ok { own2 := After(own, w.st.db, op); }
    }
  }

  lemma {:induction false} PlayKeeps(w: World, own: Owners, turns: seq<Turn>) returns (own2: Owners)
    requires Inv(w) && FreshIds(w) && CashOk(w) && Refines(w.st.db, own)
    ensures Inv(Play(w, turns)) && CashOk(Play(w, turns)) && Refines(Play(w, turns).st.db, own2)
    decreases |turns|
  {
    hide Inv, FreshIds, CashOk, Refines, Deal;
    own2 := own;
    if turns != [] {
      DealKeeps(w, turns[0]);
      CashKeeps(w, turns[0]);
      IdsStayFresh(w, turns[0]);
      own2 := DealRefines(w, own, turns[0]);
      own2 := PlayKeeps(Deal(w, turns[0]), own2, turns[1..]);
    }
  }

  /** However many flushes overlap, with whatever crashes and inventory traffic: no reference is given seats
      twice, nor one that was claimed before; a row that names a booking names a TICKETED one; no booking gets
      two cash rows; and no segment is booked twice. */
  lemma OverlappingFlushesSellOnce(st: State, own: Owners, flushers: seq<Flusher>, sold: seq<Ref>, turns: seq<Turn>)
    returns (own2: Owners)
    requires Refines(st.db, own) && FreshIds(World(st, flushers, sold)) && forall f :: f in flushers ==> f.phase == Ready
    requires Distinct(sold) && (forall ref :: ref in sold ==> ref in st.refs) && forall ref: Ref :: RowOk(st, ref)
    requires RowsApart(st.drawers.cash) && forall row :: row in st.drawers.cash && row.booking.Some? ==> row.booking.value in st.shop.bookings
    ensures var w := Play(World(st, flushers, sold), turns);
      && Distinct(w.sold) && sold <= w.sold && (forall ref: Ref :: RowOk(w.st, ref)) && OnePerRef(w)
      && RowsApart(w.st.drawers.cash) && Refines(w.st.db, own2)
  {
    var w0 := World(st, flushers, sold);
    assert forall i: nat :: i < |flushers| ==> flushers[i] in flushers;
    assert Inv(w0) && CashOk(w0);
    own2 := PlayKeeps(w0, own, turns);
    SoldExtends(w0, turns);
    hide Play, Refines, RowOk, FreshIds;
  }

  lemma {:induction false} SoldExtends(w: World, turns: seq<Turn>)
    ensures w.sold <= Play(w, turns).sold
    decreases |turns|
  {
    if turns != [] {
      SoldStep(w, turns[0]);
      hide Deal;
      SoldExtends(Deal(w, turns[0]), turns[1..]);
    }
  }

  /** The runs include all traffic: whatever the inventory can do in a guarded run, it can do between two commits. */
  lemma {:induction false} TrafficIsIncluded(w: World, ops: seq<Op>) returns (turns: seq<Turn>)
    requires Laws.GuardedFrom(w.st.db, ops)
    ensures Play(w, turns) == w.(st := w.st.(db := Laws.RunFrom(w.st.db, ops)))
    decreases |ops|
  {
    hide Step, Guarded;
    turns := [];
    if ops != [] {
      var w2 := Deal(w, Elsewhere(ops[0]));
      assert w2 == w.(st := w.st.(db := Step(w.st.db, ops[0]).db));
      var rest := TrafficIsIncluded(w2, ops[1..]);
      turns := [Elsewhere(ops[0])] + rest;
      assert turns[1..] == rest;
    }
  }

  /** They include the counter's day: a shift opened and, after whatever happens in between, counted. */
  lemma ShiftsAreIncluded(w: World, s: ShiftId, float: nat, turns: seq<Turn>, counted: int)
    requires s !in w.st.drawers.shifts
    ensures Play(w, [OpenShift(s, float)]).st.drawers.shifts == w.st.drawers.shifts[s := Shift(OPEN, float, 0, 0, 0)]
    ensures var now, after := Play(w, turns).st.drawers, Play(w, turns + [CloseShift(s, counted)]).st.drawers;
      s in now.shifts && now.shifts[s].status == OPEN ==>
        && s in after.shifts && after.shifts[s].counted == counted && after.shifts[s].status != OPEN
        && after.shifts[s].expected == now.shifts[s].float + Movements(now.cash, At(s))
  {
    hide Advance, Movements, VariancePostings, Lines;
    assert [OpenShift(s, float)][1..] == [];
    PlayOneMore(w, turns, CloseShift(s, counted));
  }

  lemma {:induction false} PlayOneMore(w: World, turns: seq<Turn>, t: Turn)
    ensures Play(w, turns + [t]) == Deal(Play(w, turns), t)
    decreases |turns|
  {
    hide Deal;
    if turns == [] {
      assert turns + [t] == [t] && [t][1..] == [];
      assert Play(w, [t]) == Play(Deal(w, t), []);
    } else {
      assert (turns + [t])[0] == turns[0] && (turns + [t])[1..] == turns[1..] + [t];
      PlayOneMore(Deal(w, turns[0]), turns[1..], t);
    }
  }

  lemma SoldStep(w: World, t: Turn)
    ensures w.sold <= Deal(w, t).sold
  {
    hide Step, CounterPostings, Journal, Issue;
  }

  // ---- one request alone ----------------------------------------------------------------------

  function Alone(st: State, counter: CounterId, queue: seq<Sale>, at: nat, phase: Phase, sold: seq<Ref>): World {
    World(st, [Flusher(counter, queue, at, phase)], sold)
  }

  function Steps(w: World, now: int, n: nat): World
    decreases n
  {
    if n == 0 then w else Steps(Deal(w, Run(0, now)), now, n - 1)
  }

  /** The last statement, for a sale that was refused or ticketed. */
  lemma Records(st: State, counter: CounterId, queue: seq<Sale>, k: nat, phase: Phase, sold: seq<Ref>, now: int)
    requires k < |queue| && phase in {Drawn, Refused}
    ensures Deal(Alone(st, counter, queue, k, phase, sold), Run(0, now))
         == Alone(st.(refs := st.refs[queue[k].ref := if phase == Drawn then Row(false, Some(queue[k].booking)) else Row(true, None)]),
                  counter, queue, k + 1, Ready, sold)
  {
  }

  lemma TakesSeats(st: State, counter: CounterId, queue: seq<Sale>, k: nat, sold: seq<Ref>, now: int)
    requires k < |queue|
    ensures var sale := queue[k];
      var r := SellQuota(st.db, sale.hold, counter, sale.trip, sale.seats, sale.board, sale.drop, now);
      Deal(Alone(st, counter, queue, k, Claimed, sold), Run(0, now))
        == if r.out == Ok then Alone(st.(db := r.db), counter, queue, k, Seated, sold + [sale.ref])
           else Alone(st, counter, queue, k, Refused, sold)
  {
    SaleStep(st.db, counter, Delivery(queue[k], Never, now));
    hide Step, SellQuota;
  }

  lemma BooksAndPays(st: State, counter: CounterId, queue: seq<Sale>, k: nat, sold: seq<Ref>, now: int)
    requires k < |queue|
    ensures var sale := queue[k];
      var created := Create(st.shop, sale.booking, sale.hold, sale.seats, sale.total);
      var key, p := PayKey(CASH, sale.booking), Payment(sale.booking, sale.total);
      && Deal(Alone(st, counter, queue, k, Seated, sold), Run(0, now)) == Alone(st.(shop := created), counter, queue, k, Created, sold)
      && Deal(Alone(st.(shop := created), counter, queue, k, Created, sold), Run(0, now))
         == if Inserts(created, key, p) then Alone(st.(shop := Pay(created, key, p)), counter, queue, k, Paid, sold)
            else Alone(st.(shop := created), counter, queue, k, Refused, sold)
  {
    hide Pay, Inserts, Create;
  }

  lemma ConfirmsAndIssues(st: State, counter: CounterId, queue: seq<Sale>, k: nat, sold: seq<Ref>, now: int)
    requires k < |queue| && ConfirmHold(st.db, queue[k].hold) == Refuse(st.db, Ok)
    ensures var shop := SagaTables.Finalise(st.shop, queue[k].booking, CounterPostings(queue[k].total, true));
      && Deal(Alone(st, counter, queue, k, Paid, sold), Run(0, now)) == Alone(st, counter, queue, k, Confirmed, sold)
      && Deal(Alone(st, counter, queue, k, Confirmed, sold), Run(0, now))
         == Alone(st.(shop := shop), counter, queue, k, if IsTicketed(shop, queue[k].booking) then Issued else Refused, sold)
  {
    assert Step(st.db, OpConfirm(queue[k].hold)) == ConfirmHold(st.db, queue[k].hold);
    hide Step, ConfirmHold, SagaTables.Finalise, CounterPostings, IsTicketed;
  }

  lemma DrawsRow(st: State, counter: CounterId, queue: seq<Sale>, k: nat, sold: seq<Ref>, now: int)
    requires k < |queue|
    ensures Deal(Alone(st, counter, queue, k, Issued, sold), Run(0, now))
         == Alone(st.(drawers := Draw(st.drawers, queue[k].shift, queue[k].booking, queue[k].total)), counter, queue, k,
                  if Usable(st.drawers, queue[k].shift) then Drawn else Refused, sold)
  {
  }

  /** What booking and settlement of a sale leave that has its seats. */
  function Settled(st: State, sale: Sale): State {
    var settled := SettleCash(Create(st.shop, sale.booking, sale.hold, sale.seats, sale.total), sale.booking, sale.total);
    if !IsTicketed(settled, sale.booking) then State(st.db, settled, st.drawers, st.refs[sale.ref := Row(true, None)])
    else State(st.db, settled, Draw(st.drawers, sale.shift, sale.booking, sale.total),
               st.refs[sale.ref := if Usable(st.drawers, sale.shift) then Row(false, Some(sale.booking)) else Row(true, None)])
  }

  /** The first statement, and what handling a sale means after it. */
  lemma Claims(st: State, counter: CounterId, queue: seq<Sale>, k: nat, sold: seq<Ref>, now: int)
    requires k < |queue|
    ensures var sale := queue[k]; var r := Replay(st.db, st.shop, st.drawers, counter, sale, Never, now);
      var st1 := st.(refs := st.refs[sale.ref := CLAIMED]);
      && Deal(Alone(st, counter, queue, k, Ready, sold), Run(0, now))
         == (if sale.ref in st.refs then Alone(st, counter, queue, k + 1, Ready, sold) else Alone(st1, counter, queue, k, Claimed, sold))
      && Handle(st, counter, Delivery(sale, Never, now)).0
         == (if sale.ref in st.refs then st
             else State(r.0, r.1, r.2, st1.refs[sale.ref := Recorded(Delivery(sale, Never, now), r.3)]))
  {
    hide Replay;
    Overwritten(st.refs, queue[k].ref, CLAIMED,
                Recorded(Delivery(queue[k], Never, now), Replay(st.db, st.shop, st.drawers, counter, queue[k], Never, now).3));
  }

  /** Undisturbed, the commits of a request for one sale are `Handle` of its delivery. */
  lemma AloneIsHandle(st: State, counter: CounterId, queue: seq<Sale>, k: nat, sold: seq<Ref>, now: int)
    returns (n: nat, sold2: seq<Ref>)
    requires k < |queue|
    ensures Steps(Alone(st, counter, queue, k, Ready, sold), now, n)
         == Alone(Handle(st, counter, Delivery(queue[k], Never, now)).0, counter, queue, k + 1, Ready, sold2)
  {
    hide Deal, Handle, Replay, Alone, Recorded, Steps;
    var w := Alone(st, counter, queue, k, Ready, sold);
    Claims(st, counter, queue, k, sold, now);
    n, sold2 := 0, sold;
    if queue[k].ref !in st.refs {
      n, sold2 := ClaimedIsReplay(st.(refs := st.refs[queue[k].ref := CLAIMED]), counter, queue, k, sold, now);
    }
    Unfold(w, now, n);
    Unfold(Deal(w, Run(0, now)), now, 0);
    n := n + 1;
  }

  lemma ClaimedIsReplay(st: State, counter: CounterId, queue: seq<Sale>, k: nat, sold: seq<Ref>, now: int)
    returns (n: nat, sold2: seq<Ref>)
    requires k < |queue|
    ensures var sale := queue[k]; var r := Replay(st.db, st.shop, st.drawers, counter, sale, Never, now);
      Steps(Alone(st, counter, queue, k, Claimed, sold), now, n)
        == Alone(State(r.0, r.1, r.2, st.refs[sale.ref := Recorded(Delivery(sale, Never, now), r.3)]), counter, queue, k + 1, Ready, sold2)
  {
    hide Deal, Alone, SellQuota, SettleCash, Create, Pay, Inserts, SagaTables.Finalise, CounterPostings, IsTicketed, ConfirmHold;
    var sale := queue[k];
    TakesSeats(st, counter, queue, k, sold, now);
    var r := SellQuota(st.db, sale.hold, counter, sale.trip, sale.seats, sale.board, sale.drop, now);
    if r.out != Ok {
      Records(st, counter, queue, k, Refused, sold, now);
      n, sold2 := 2, sold;
      Unfold(Alone(st, counter, queue, k, Claimed, sold), now, 1);
      Unfold(Alone(st, counter, queue, k, Refused, sold), now, 0);
    } else {
      sold2 := sold + [sale.ref];
      var st1 := st.(db := r.db);
      SoldHoldIsConfirmed(st.db, sale.hold, counter, sale.trip, sale.seats, sale.board, sale.drop, now);
      n := SeatedIsSettled(st1, counter, queue, k, sold2, now);
      Unfold(Alone(st, counter, queue, k, Claimed, sold), now, n);
      n := n + 1;
    }
  }

  lemma Unfold(w: World, now: int, n: nat)
    ensures Steps(w, now, 0) == w && Steps(w, now, n + 1) == Steps(Deal(w, Run(0, now)), now, n)
  {
    hide Deal;
  }

  lemma SeatedIsSettled(st: State, counter: CounterId, queue: seq<Sale>, k: nat, sold: seq<Ref>, now: int)
    returns (n: nat)
    requires k < |queue| && ConfirmHold(st.db, queue[k].hold) == Refuse(st.db, Ok)
    ensures Steps(Alone(st, counter, queue, k, Seated, sold), now, n) == Alone(Settled(st, queue[k]), counter, queue, k + 1, Ready, sold)
  {
    hide Deal, Alone, SettleCash, Create, Pay, Inserts, SagaTables.Finalise, CounterPostings, IsTicketed, ConfirmHold, Steps, Draw, Usable;
    var sale := queue[k];
    var created, key, p := Create(st.shop, sale.booking, sale.hold, sale.seats, sale.total), PayKey(CASH, sale.booking), Payment(sale.booking, sale.total);
    SettleCashSteps(st.shop, sale);
    BooksAndPays(st, counter, queue, k, sold, now);
    var w0, w1 := Alone(st, counter, queue, k, Seated, sold), Alone(st.(shop := created), counter, queue, k, Created, sold);
    if !Inserts(created, key, p) {
      n := 3;
      var w2 := Alone(st.(shop := created), counter, queue, k, Refused, sold);
      Records(st.(shop := created), counter, queue, k, Refused, sold, now);
      Unfold(w0, now, 2);
      Unfold(w1, now, 1);
      Unfold(w2, now, 0);
      Unfold(Deal(w2, Run(0, now)), now, 0);
    } else {
      var paid := Pay(created, key, p);
      n := PaidIsSettled(st.(shop := paid), counter, queue, k, sold, now);
      Unfold(w0, now, n + 1);
      Unfold(w1, now, n);
      n := n + 2;
    }
  }

  /** From the payment on: confirm, ticket, and for a ticketed sale the cash row; then the record. */
  lemma PaidIsSettled(st: State, counter: CounterId, queue: seq<Sale>, k: nat, sold: seq<Ref>, now: int)
    returns (n: nat)
    requires k < |queue| && ConfirmHold(st.db, queue[k].hold) == Refuse(st.db, Ok)
    ensures var sale := queue[k];
      var shop := SagaTables.Finalise(st.shop, sale.booking, CounterPostings(sale.total, true));
      var issued := IsTicketed(shop, sale.booking);
      Steps(Alone(st, counter, queue, k, Paid, sold), now, n)
        == Alone(State(st.db, shop, if issued then Draw(st.drawers, sale.shift, sale.booking, sale.total) else st.drawers,
                       st.refs[sale.ref := if issued && Usable(st.drawers, sale.shift) then Row(false, Some(sale.booking)) else Row(true, None)]),
                 counter, queue, k + 1, Ready, sold)
  {
    hide Deal, Alone, SagaTables.Finalise, CounterPostings, IsTicketed, ConfirmHold, Steps, Draw, Usable;
    var sale := queue[k];
    ConfirmsAndIssues(st, counter, queue, k, sold, now);
    var st1 := st.(shop := SagaTables.Finalise(st.shop, sale.booking, CounterPostings(sale.total, true)));
    var w2, w3 := Alone(st, counter, queue, k, Paid, sold), Alone(st, counter, queue, k, Confirmed, sold);
    if !IsTicketed(st1.shop, sale.booking) {
      n := 3;
      var w4 := Alone(st1, counter, queue, k, Refused, sold);
      Records(st1, counter, queue, k, Refused, sold, now);
      Unfold(w2, now, 2);
      Unfold(w3, now, 1);
      Unfold(w4, now, 0);
      Unfold(Deal(w4, Run(0, now)), now, 0);
    } else {
      n := 4;
      DrawsRow(st1, counter, queue, k, sold, now);
      var st2 := st1.(drawers := Draw(st1.drawers, sale.shift, sale.booking, sale.total));
      var last := if Usable(st1.drawers, sale.shift) then Drawn else Refused;
      var w4, w5 := Alone(st1, counter, queue, k, Issued, sold), Alone(st2, counter, queue, k, last, sold);
      Records(st2, counter, queue, k, last, sold, now);
      Unfold(w2, now, 3);
      Unfold(w3, now, 2);
      Unfold(w4, now, 1);
      Unfold(w5, now, 0);
      Unfold(Deal(w5, Run(0, now)), now, 0);
    }
  }
}
