/** Counter shifts and their cash: the last statement of SettleCounterSale, and CloseShift
    (services/commerce/commerce/channels.go). */
module CashDrawer {
  import opened Wrappers
  import opened Ledger
  import opened SagaTables

  type ShiftId = nat

  datatype ShiftStatus = OPEN | BALANCED | VARIANCE

  /** A counter.shifts row; the last three columns are written when the shift is closed. */
  datatype Shift = Shift(status: ShiftStatus, float: int, counted: int, expected: int, variance: int)

  /** A counter.cash_transactions row of method CASH; that of a sale names its booking. */
  datatype CashRow = CashRow(shift: ShiftId, booking: Option<BookingId>, amount: int)

  /** The journal of a counted variance. */
  datatype Writedown = Writedown(shift: ShiftId, lines: seq<Posting>)

  datatype Drawers = Drawers(shifts: map<ShiftId, Shift>, cash: seq<CashRow>, writedowns: seq<Writedown>)

  const NO_DRAWERS := Drawers(map[], [], [])

  datatype Count = ErrShiftNotOpen | Closed(expected: int, variance: int, status: ShiftStatus)

  /** Everything, or what belongs to one shift. */
  datatype Scope = Everywhere | At(s: ShiftId)

  /** A settlement names no shift (an empty id) or one, which need not exist. */
  predicate Within(scope: Scope, shift: Option<ShiftId>) { scope.Everywhere? || shift == Some(scope.s) }

  predicate Usable(d: Drawers, shift: Option<ShiftId>) { shift.Some? ==> shift.value in d.shifts }

  /** SUM(amount_poisha). */
  function Movements(cash: seq<CashRow>, scope: Scope): int {
    if cash == [] then 0
    else
      var last := cash[|cash| - 1];
      Movements(cash[..|cash| - 1], scope) + if Within(scope, Some(last.shift)) then last.amount else 0
  }

  /** What the written down variances add to account 1001. */
  function Variances(writedowns: seq<Writedown>, scope: Scope): int {
    if writedowns == [] then 0
    else
      var last := writedowns[|writedowns| - 1];
      Variances(writedowns[..|writedowns| - 1], scope) + if Within(scope, Some(last.shift)) then Net(last.lines, Cash) else 0
  }

  /** The cash row of a sale: none without a shift; shift_id must reference a shift, open or not. */
  function Draw(d: Drawers, shift: Option<ShiftId>, b: BookingId, amount: int): Drawers {
    if shift.Some? && Usable(d, shift) then d.(cash := d.cash + [CashRow(shift.value, Some(b), amount)]) else d
  }

  /** No booking has two cash rows. */
  ghost predicate RowsApart(cash: seq<CashRow>) {
    forall m, n :: 0 <= m < n < |cash| && cash[m].booking.Some? ==> cash[m].booking != cash[n].booking
  }

  function Open(d: Drawers, s: ShiftId, float: nat): Drawers {
    if s in d.shifts then d else d.(shifts := d.shifts[s := Shift(OPEN, float, 0, 0, 0)])
  }

  function VariancePostings(variance: int): seq<Posting> {
    if variance == 0 then []
    else if variance < 0 then [Posting(CashVariance, DR, -variance), Posting(Cash, CR, -variance)]
    else [Posting(CashVariance, CR, variance), Posting(Cash, DR, variance)]
  }

  /** The transaction of CloseShift. */
  function Close(d: Drawers, s: ShiftId, counted: int): Drawers {
    if s !in d.shifts || d.shifts[s].status != OPEN then d
    else
      var expected := d.shifts[s].float + Movements(d.cash, At(s));
      var variance := counted - expected;
      Drawers(d.shifts[s := Shift(if variance == 0 then BALANCED else VARIANCE, d.shifts[s].float, counted, expected, variance)],
              if variance == 0 then d.cash else d.cash + [CashRow(s, None, variance)],
              if variance == 0 then d.writedowns else d.writedowns + [Writedown(s, Lines(VariancePostings(variance)))])
  }

  lemma VarianceBalances(variance: int)
    ensures Journal(VariancePostings(variance)) == Some(Lines(VariancePostings(variance)))
    ensures Net(Lines(VariancePostings(variance)), Cash) == variance
  {
    var ps := VariancePostings(variance);
    if variance != 0 { TwoLines(ps[0], ps[1]); }
    JournalIff(ps);
    LinesKeepTotals(ps);
  }

  lemma MovementsNext(cash: seq<CashRow>, row: CashRow, scope: Scope)
    ensures Movements(cash + [row], scope) == Movements(cash, scope) + if Within(scope, Some(row.shift)) then row.amount else 0
  {
    assert (cash + [row])[..|cash|] == cash;
  }

  lemma VariancesNext(writedowns: seq<Writedown>, e: Writedown, scope: Scope)
    ensures Variances(writedowns + [e], scope) == Variances(writedowns, scope) + if Within(scope, Some(e.shift)) then Net(e.lines, Cash) else 0
  {
    assert (writedowns + [e])[..|writedowns|] == writedowns;
  }

  /** What a close does to the sums: the row and the journal carry the same variance. */
  lemma CloseMoves(d: Drawers, s: ShiftId, counted: int, scope: Scope)
    ensures var d2 := Close(d, s, counted);
      && Movements(d2.cash, scope) - Movements(d.cash, scope) == Variances(d2.writedowns, scope) - Variances(d.writedowns, scope)
      && (s in d.shifts && d.shifts[s].status == OPEN ==>
            Movements(d2.cash, scope) == Movements(d.cash, scope) + if Within(scope, Some(s)) then counted - d.shifts[s].float - Movements(d.cash, At(s)) else 0)
  {
    hide Net, Lines, VariancePostings, Journal, Movements, Variances;
    if s in d.shifts && d.shifts[s].status == OPEN {
      var variance := counted - (d.shifts[s].float + Movements(d.cash, At(s)));
      VarianceBalances(variance);
      MovementsNext(d.cash, CashRow(s, None, variance), scope);
      VariancesNext(d.writedowns, Writedown(s, Lines(VariancePostings(variance))), scope);
    }
  }
}

/** Cash settlements and counts under interleaving: the saga of `SagaRuns`, whose settlements in cash go on with a
    cash row as one more commit, with shifts opened and closed and processes dying anywhere in between. */
module DrawerRuns {
  import opened Wrappers
  import opened Inventory
  import opened Ledger
  import opened SagaTables
  import opened SagaRuns
  import opened CashDrawer

  /** Beside a process of the saga: the shift that its settlement names, and whether it has yet to insert the cash
      row. The amounts are history: the cash journal that it posted, and its row, apart by whether it was inserted
      before the shift was closed or later. */
  datatype Settler = Settler(shift: Option<ShiftId>, owes: bool, posted: int, counted: int, late: int)

  datatype World = World(saga: SagaRuns.World, drawers: Drawers, settlers: seq<Settler>)

  datatype Turn = Saga(t: SagaRuns.Turn) | Insert(i: nat) | OpenShift(s: ShiftId, float: nat) | CloseShift(s: ShiftId, counted: int)

  predicate InCash(job: Job) { job.CounterSale? && job.instrument == CASH }

  /** The next step of process `i` is a Finalise in cash that returns no error. */
  predicate Finalises(saga: SagaRuns.World, i: nat) {
    && i < |saga.processes| && InCash(saga.processes[i].job) && saga.processes[i].phase == Finishing
    && saga.processes[i].job.booking in saga.shop.bookings
    && var k := saga.shop.bookings[saga.processes[i].job.booking];
    k.status == PAYMENT_PENDING ==> Journal(CounterPostings(k.total, true)).Some?
  }

  /** Finalise posts the journal, or finds the booking finalised already and returns without one. */
  function Gross(saga: SagaRuns.World, i: nat): int
    requires Finalises(saga, i)
  {
    var k := saga.shop.bookings[saga.processes[i].job.booking];
    if k.status == PAYMENT_PENDING then k.total else 0
  }

  function SagaTurn(w: World, t: SagaRuns.Turn): World {
    var w2 := w.(saga := SagaRuns.Deal(w.saga, t));
    match t
    case Run(i) =>
      if i < |w.settlers| && Finalises(w.saga, i) then
        w2.(settlers := w.settlers[i := w.settlers[i].(owes := w.settlers[i].shift.Some?, posted := Gross(w.saga, i))])
      else w2
    case Crash(i) => if i < |w.settlers| then w2.(settlers := w.settlers[i := w.settlers[i].(owes := false)]) else w2
    case _ => w2
  }

  predicate Inserts(w: World, i: nat) {
    && i < |w.settlers| && i < |w.saga.processes| && w.settlers[i].owes && w.settlers[i].shift.Some?
    && w.saga.processes[i].job.booking in w.saga.shop.bookings
  }

  function InsertRow(w: World, i: nat): World
    requires Inserts(w, i)
  {
    var x, b := w.settlers[i], w.saga.processes[i].job.booking;
    var gross, s := w.saga.shop.bookings[b].total, x.shift.value;
    var drawers := Draw(w.drawers, x.shift, b, gross);
    var x2 := if s !in w.drawers.shifts then x.(owes := false)
              else if w.drawers.shifts[s].status == OPEN then x.(owes := false, counted := gross)
              else x.(owes := false, late := gross);
    w.(drawers := drawers, settlers := w.settlers[i := x2])
  }

  function Deal(w: World, t: Turn): World {
    match t
    case Saga(t) => SagaTurn(w, t)
    case Insert(i) => if Inserts(w, i) then InsertRow(w, i) else w
    case OpenShift(s, float) => w.(drawers := Open(w.drawers, s, float))
    case CloseShift(s, counted) => w.(drawers := Close(w.drawers, s, counted))
  }

  function Play(w: World, turns: seq<Turn>): World
    decreases |turns|
  {
    if turns == [] then w else Play(Deal(w, turns[0]), turns[1..])
  }

  /** No shift yet, and every job with the shift that it names. */
  function Opening(db: Db, jobs: seq<Job>, shifts: seq<Option<ShiftId>>): World
    requires |shifts| == |jobs|
  {
    World.World(SagaRuns.Opening(db, jobs), NO_DRAWERS, seq(|jobs|, i requires 0 <= i < |jobs| => Settler(shifts[i], false, 0, 0, 0)))
  }

  // ---- sums over the settlements ------------------------------------------------------------

  function Sum(f: Settler -> int, xs: seq<Settler>): int {
    if xs == [] then 0 else Sum(f, xs[..|xs| - 1]) + f(xs[|xs| - 1])
  }

  function Posted(scope: Scope): Settler -> int { (x: Settler) => if Within(scope, x.shift) then x.posted else 0 }
  function Counted(scope: Scope): Settler -> int { (x: Settler) => if Within(scope, x.shift) then x.counted else 0 }
  function Late(scope: Scope): Settler -> int { (x: Settler) => if Within(scope, x.shift) then x.late else 0 }
  function Rowed(scope: Scope): Settler -> int { (x: Settler) => if Within(scope,
          x.shift) then x.counted + x.late else 0 }

  /** Journals without a row, and rows without a journal. */
  function Unrowed(scope: Scope): Settler -> int {
    (x: Settler) => if Within(scope, x.shift) && x.counted + x.late == 0 then x.posted else 0
  }
  function Unposted(scope: Scope): Settler -> int {
    (x: Settler) => if Within(scope, x.shift) && x.posted == 0 then x.counted + x.late else 0
  }

  /** Journals whose row the count missed, and counted rows without a journal. */
  function Lost(scope: Scope): Settler -> int { (x: Settler) => if Within(scope,
          x.shift) && x.counted == 0 then x.posted else 0 }
  function Extra(scope: Scope): Settler -> int { (x: Settler) => if Within(scope,
          x.shift) && x.posted == 0 then x.counted else 0 }

  lemma {:induction false} SumUpdate(f: Settler -> int, xs: seq<Settler>, i: nat, x: Settler)
    requires i < |xs|
    ensures Sum(f, xs[i := x]) == Sum(f, xs) - f(xs[i]) + f(x)
  {
    var n := |xs| - 1;
    if i == n {
      assert xs[i := x][..n] == xs[..n];
    } else {
      assert xs[i := x][..n] == xs[..n][i := x];
      SumUpdate(f, xs[..n], i, x);
    }
  }

  lemma {:induction false} SumZeroIff(f: Settler -> int, xs: seq<Settler>)
    requires forall x :: x in xs ==> f(x) >= 0
    ensures Sum(f, xs) >= 0 && (Sum(f, xs) == 0 <==> forall x :: x in xs ==> f(x) == 0)
  {
    if xs != [] {
      var n := |xs| - 1;
      SumZeroIff(f, xs[..n]);
      assert xs == xs[..n] + [xs[n]];
    }
  }

  /** The amounts of a settlement are the total of its booking or nothing. */
  predicate Amounts(x: Settler, total: int) {
    && x.posted in {0, total} && x.counted in {0, total} && x.late in {0, total} && (x.counted == 0 || x.late == 0)
    && (total > 0 || x.posted == x.counted == x.late == 0)
  }

  ghost predicate AmountsOk(xs: seq<Settler>) { forall x :: x in xs ==> exists total: int :: Amounts(x, total) }

  lemma {:induction false} SumSplits(scope: Scope, xs: seq<Settler>)
    requires AmountsOk(xs)
    ensures Sum(Rowed(scope), xs) == Sum(Counted(scope), xs) + Sum(Late(scope), xs)
    ensures Sum(Posted(scope), xs) - Sum(Rowed(scope), xs) == Sum(Unrowed(scope), xs) - Sum(Unposted(scope), xs)
    ensures Sum(Posted(scope), xs) - Sum(Counted(scope), xs) == Sum(Lost(scope), xs) - Sum(Extra(scope), xs)
  {
    if xs != [] {
      var n := |xs| - 1;
      assert forall x :: x in xs[..n] ==> x in xs;
      SumSplits(scope, xs[..n]);
      assert xs[n] in xs;
      var total: int :| Amounts(xs[n], total);
    }
  }

  // ---- what holds in every reachable state ---------------------------------------------------

  /** Account 1001 over the journals of the saga. */
  function CashOf(journals: seq<Entry>): int {
    if journals == [] then 0 else CashOf(journals[..|journals| - 1]) + Net(journals[|journals| - 1].lines, Cash)
  }

  function JobOf(w: World, i: nat): Job
    requires i < |w.saga.processes|
  {
    w.saga.processes[i].job
  }

  predicate Rows(x: Settler) { x.counted > 0 || x.late > 0 }

  /** A settlement in cash that got past its payment row. */
  predicate Beyond(w: World, i: nat) {
    && i < |w.saga.processes| && i < |w.settlers| && InCash(JobOf(w, i))
    && (HasPaid(w.saga.processes[i]) || w.settlers[i].owes || w.settlers[i].posted > 0 || Rows(w.settlers[i]))
  }

  function TotalOf(shop: Shop, b: BookingId): int { if b in shop.bookings then shop.bookings[b].total else 0 }

  ghost predicate SettlerOk(w: World, i: nat) {
    i < |w.saga.processes| && i < |w.settlers| ==>
      var p, x, b := w.saga.processes[i], w.settlers[i], JobOf(w, i).booking;
      && (Beyond(w, i) ==> b in w.saga.shop.bookings && TotalOf(w.saga.shop, b) > 0 && PayKey(CASH, b) in w.saga.shop.payments)
      && (!InCash(p.job) || p.phase != Done ==> !x.owes && x.posted == x.counted == x.late == 0)
      && Amounts(x, TotalOf(w.saga.shop, b))
      && (x.owes ==> !Rows(x) && x.shift.Some?)
      && (Rows(x) ==> x.shift.Some? && x.shift.value in w.drawers.shifts)
      && (x.late > 0 ==> w.drawers.shifts[x.shift.value].status != OPEN)
  }

  /** No two settlements in cash of one booking get past the payment row. */
  ghost predicate Apart(w: World) {
    forall i: nat, j: nat :: i < j && Beyond(w, i) && Beyond(w, j) ==> JobOf(w, i).booking != JobOf(w, j).booking
  }

  /** The columns of a closed shift; nothing is written down before. */
  ghost predicate ShiftOk(w: World, s: ShiftId) {
    if s in w.drawers.shifts && w.drawers.shifts[s].status != OPEN then
      var shift := w.drawers.shifts[s];
      && shift.expected == shift.float + Sum(Counted(At(s)), w.settlers)
      && shift.variance == shift.counted - shift.expected == Variances(w.drawers.writedowns, At(s))
    else Variances(w.drawers.writedowns, At(s)) == 0
  }

  ghost predicate CashOk(w: World, scope: Scope) {
    Movements(w.drawers.cash, scope) == Sum(Rowed(scope), w.settlers) + Variances(w.drawers.writedowns, scope)
  }

  ghost predicate RowOk(w: World, n: nat) {
    n < |w.drawers.cash| && w.drawers.cash[n].booking.Some? ==>
      exists i: nat :: Beyond(w, i) && Rows(w.settlers[i]) && JobOf(w, i).booking == w.drawers.cash[n].booking.value
  }

  ghost predicate Inv(w: World) {
    && |w.settlers| == |w.saga.processes| && Apart(w) && RowsApart(w.drawers.cash)
    && (forall i: nat :: SettlerOk(w, i)) && (forall n: nat :: RowOk(w, n))
    && (forall s: ShiftId :: ShiftOk(w, s)) && (forall scope: Scope :: CashOk(w, scope))
    && CashOf(w.saga.shop.journals) == Sum(Posted(Everywhere), w.settlers)
  }

  // ---- the saga keeps it ---------------------------------------------------------------------

  lemma CashNext(before: seq<Entry>, after: seq<Entry>)
    ensures |after| == |before| + 1 && before <= after ==> CashOf(after) == CashOf(before) + Net(after[|before|].lines, Cash)
  {
    hide Net;
    assert |after| == |before| + 1 && before <= after ==> after[..|before|] == before;
  }

  /** Only a sale in cash debits account 1001. */
  lemma CashInSale(job: Job, k: Booking)
    requires Sells(job)
    ensures Net(Lines(PostingsOf(job, k)), Cash) == if InCash(job) then k.total else 0
  {
    LinesKeepTotals(PostingsOf(job, k));
    if job.Webhook? {
      SaleLines(job.amount);
      if k.instead.Some? { RescheduleLines(k.instead.value, k.total); }
    } else {
      SaleLines(k.total);
      var ps := CounterPostings(k.total, false);
      FourLines(ps[0], ps[1], ps[2], ps[3]);
      var qs := AgentPostings(k.total);
      ThreeLines(qs[0], qs[1], qs[2]);
    }
  }

  lemma NoCashInRefund(gross: int, pct: int, amount: int)
    ensures Net(Lines(CancelPostings(gross, pct)), Cash) == 0 == Net(Lines(SettlePostings(amount)), Cash)
  {
    hide Net, Lines, Refund, OperatorRefund, PlatformRefund, Total;
    var ps, qs := CancelPostings(gross, pct), SettlePostings(amount);
    LinesKeepTotals(ps);
    LinesKeepTotals(qs);
    NoLines();
    if ps != [] { ThreeLines(ps[0], ps[1], ps[2]); }
    if qs != [] { TwoLines(qs[0], qs[1]); }
  }

  lemma NoLines()
    ensures Net([], Cash) == 0
  {
  }

  /** What a turn of the saga adds to account 1001. */
  lemma SagaPosts(saga: SagaRuns.World, t: SagaRuns.Turn)
    ensures CashOf(SagaRuns.Deal(saga, t).shop.journals)
         == CashOf(saga.shop.journals) + if t.Run? && Finalises(saga, t.i) then Gross(saga, t.i) else 0
  {
    hide Step, Net, Lines, CounterPostings, GatewayPostings, AgentPostings, ReschedulePostings, Issue, CancelPostings, SettlePostings;
    var saga2 := SagaRuns.Deal(saga, t);
    CashNext(saga.shop.journals, saga2.shop.journals);
    if t.Run? && t.i < |saga.processes| && saga.processes[t.i].job.booking in saga.shop.bookings {
      var p := saga.processes[t.i];
      var k := saga.shop.bookings[p.job.booking];
      match p.phase
      case Finishing => if Sells(p.job) { CashInSale(p.job, k); }
      case Refunding => if p.job.Cancellation? { NoCashInRefund(k.total, p.job.pct, 0); }
      case Settling(n) => if n < |saga.shop.refunds| { NoCashInRefund(0, 0, saga.shop.refunds[n].amount); }
      case _ =>
    }
  }

  /** What a turn of the saga does to a process and its booking. */
  lemma SagaStep(saga: SagaRuns.World, t: SagaRuns.Turn, i: nat)
    requires i < |saga.processes|
    ensures var saga2 := SagaRuns.Deal(saga, t);
      && |saga2.processes| == |saga.processes| && saga2.processes[i].job == saga.processes[i].job
      && (saga.processes[i].phase == Done ==> saga2.processes[i].phase == Done)
      && (t == Run(i) && saga.processes[i].phase == Finishing ==> saga2.processes[i].phase == Done)
      && (t == SagaRuns.Crash(i) ==> saga2.processes[i].phase == Done)
      && (HasPaid(saga2.processes[i]) ==> HasPaid(saga.processes[i]) || Pays(saga, t, i))
  {
    hide Step, PostingsOf, Issue, Finalise, Cancel, SettleRow, Admit;
    AdmitsEarly(saga.shop, saga.processes[i].job);
  }

  lemma AdmitsEarly(shop: Shop, job: Job)
    ensures Admit(shop, job) !in {Confirming, Finishing}
  {
    RequestedIsRow(shop.refunds, job.booking);
  }

  /** The payment row of process `i` is inserted. */
  predicate Pays(saga: SagaRuns.World, t: SagaRuns.Turn, i: nat) {
    && t == Run(i) && i < |saga.processes| && saga.processes[i].phase == Paying
    && var job := saga.processes[i].job;
    && Sells(job) && job.booking in saga.shop.bookings
    && SagaTables.Inserts(saga.shop, KeyOf(job), Payment(job.booking, AmountOf(job, saga.shop.bookings[job.booking])))
  }

  lemma PaysOnce(saga: SagaRuns.World, t: SagaRuns.Turn, i: nat)
    requires Pays(saga, t, i)
    ensures KeyOf(saga.processes[i].job) !in saga.shop.payments && KeyOf(saga.processes[i].job) in SagaRuns.Deal(saga, t).shop.payments
    ensures saga.processes[i].job.CounterSale? ==> TotalOf(saga.shop, saga.processes[i].job.booking) > 0
  {
  }

  lemma BookingStays(saga: SagaRuns.World, t: SagaRuns.Turn, b: BookingId)
    requires b in saga.shop.bookings
    ensures b in SagaRuns.Deal(saga, t).shop.bookings && TotalOf(SagaRuns.Deal(saga, t).shop, b) == TotalOf(saga.shop, b)
  {
    hide Step, PostingsOf, Issue, Admit, CancelPostings, SettlePostings, Journal;
  }

  /** A turn of the saga changes no shift, no cash row, and of a settlement only what it owes and has posted. */
  lemma SagaSettler(w: World, t: SagaRuns.Turn, i: nat)
    requires i < |w.settlers| == |w.saga.processes|
    ensures var w2 := SagaTurn(w, t);
      && w2.drawers == w.drawers && w2.saga == SagaRuns.Deal(w.saga, t) && |w2.settlers| == |w2.saga.processes| == |w.settlers|
      && w2.settlers[i] == (if t == Run(i) && Finalises(w.saga, i)
                            then w.settlers[i].(owes := w.settlers[i].shift.Some?, posted := Gross(w.saga, i))
                            else if t == SagaRuns.Crash(i) then w.settlers[i].(owes := false) else w.settlers[i])
  {
    SagaStep(w.saga, t, i);
    hide SagaRuns.Deal, Finalises;
  }

  lemma BeyondBefore(w: World, t: SagaRuns.Turn, i: nat)
    requires |w.settlers| == |w.saga.processes| && Beyond(SagaTurn(w, t), i)
    ensures i < |w.settlers| && JobOf(SagaTurn(w, t), i) == JobOf(w, i)
    ensures Beyond(w, i) || Pays(w.saga, t, i)
  {
    SagaSize(w, t);
    SagaStep(w.saga, t, i);
    SagaSettler(w, t, i);
    hide SagaRuns.Deal, SagaTurn, Pays, Gross;
  }

  lemma SagaSize(w: World, t: SagaRuns.Turn)
    ensures |SagaTurn(w, t).saga.processes| == |w.saga.processes| && |SagaTurn(w, t).settlers| == |w.settlers|
  {
    hide Step, PostingsOf, Issue, Finalise, Cancel, SettleRow, Admit, Finalises;
  }

  lemma BeyondStays(w: World, t: SagaRuns.Turn, i: nat)
    requires |w.settlers| == |w.saga.processes| && SettlerOk(w, i)
    ensures SettlerOk(SagaTurn(w, t), i)
  {
    SagaSize(w, t);
    if i < |w.settlers| {
      var b := JobOf(w, i).booking;
      SagaStep(w.saga, t, i);
      SagaSettler(w, t, i);
      if Beyond(SagaTurn(w, t), i) { BeyondBefore(w, t, i); }
      if Pays(w.saga, t, i) { PaysOnce(w.saga, t, i); }
      if b in w.saga.shop.bookings { BookingStays(w.saga, t, b); }
      if PayKey(CASH, b) in w.saga.shop.payments { DealKeepsPayment(w.saga, t, PayKey(CASH, b)); }
      hide SagaRuns.Deal, SagaTurn;
    }
  }

  lemma SagaApart(w: World, t: SagaRuns.Turn)
    requires Inv(w)
    ensures Apart(SagaTurn(w, t))
  {
    var w2 := SagaTurn(w, t);
    forall i: nat, j: nat | i < j && Beyond(w2, i) && Beyond(w2, j) ensures JobOf(w2, i).booking != JobOf(w2, j).booking {
      BeyondBefore(w, t, i);
      BeyondBefore(w, t, j);
      assert SettlerOk(w, i) && SettlerOk(w, j);
      if Pays(w.saga, t, i) { PaysOnce(w.saga, t, i); }
      if Pays(w.saga, t, j) { PaysOnce(w.saga, t, j); }
    }
  }

  lemma SettlerSums(w: World, t: SagaRuns.Turn, f: Settler -> int)
    requires |w.settlers| == |w.saga.processes|
    ensures if (t.Run? || t.Crash?) && t.i < |w.settlers|
            then |SagaTurn(w, t).settlers| == |w.settlers|
                 && Sum(f, SagaTurn(w, t).settlers) == Sum(f, w.settlers) - f(w.settlers[t.i]) + f(SagaTurn(w, t).settlers[t.i])
            else SagaTurn(w, t).settlers == w.settlers
  {
    hide SagaRuns.Deal, Gross, Finalises, Sum;
    if (t.Run? || t.Crash?) && t.i < |w.settlers| {
      var x := SagaTurn(w, t).settlers[t.i];
      assert SagaTurn(w, t).settlers == w.settlers[t.i := x];
      SumUpdate(f, w.settlers, t.i, x);
    }
  }

  /** Rows are inserted elsewhere, so their sums stay. */
  lemma SagaSums(w: World, t: SagaRuns.Turn, scope: Scope)
    requires |w.settlers| == |w.saga.processes|
    ensures var xs := SagaTurn(w, t).settlers;
      Sum(Rowed(scope), xs) == Sum(Rowed(scope), w.settlers) && Sum(Counted(scope), xs) == Sum(Counted(scope), w.settlers)
  {
    hide Sum;
    SettlerSums(w, t, Rowed(scope));
    SettlerSums(w, t, Counted(scope));
    if (t.Run? || t.Crash?) && t.i < |w.settlers| { SagaSettler(w, t, t.i); }
    hide SagaRuns.Deal, SagaTurn, Gross, Finalises;
  }

  /** What is posted is summed. */
  lemma SagaCash(w: World, t: SagaRuns.Turn)
    requires |w.settlers| == |w.saga.processes| && (forall i: nat :: SettlerOk(w, i))
    requires CashOf(w.saga.shop.journals) == Sum(Posted(Everywhere), w.settlers)
    ensures CashOf(SagaRuns.Deal(w.saga, t).shop.journals) == Sum(Posted(Everywhere), SagaTurn(w, t).settlers)
  {
    assert t.Run? && Finalises(w.saga, t.i) ==> t.i < |w.saga.processes| && w.saga.processes[t.i].phase == Finishing;
    hide Sum, CashOf, Amounts, Beyond, Gross, Finalises, SagaRuns.Deal;
    SagaPosts(w.saga, t);
    SettlerSums(w, t, Posted(Everywhere));
    if (t.Run? || t.Crash?) && t.i < |w.settlers| {
      SagaSettler(w, t, t.i);
      assert SettlerOk(w, t.i);
    }
    hide SagaTurn;
  }

  lemma SagaRow(w: World, t: SagaRuns.Turn, n: nat)
    requires Inv(w)
    ensures RowOk(SagaTurn(w, t), n)
  {
    SagaSize(w, t);
    assert RowOk(w, n);
    if n < |w.drawers.cash| && w.drawers.cash[n].booking.Some? {
      var i: nat :| Beyond(w, i) && Rows(w.settlers[i]) && JobOf(w, i).booking == w.drawers.cash[n].booking.value;
      SagaStep(w.saga, t, i);
      SagaSettler(w, t, i);
      assert Rows(SagaTurn(w, t).settlers[i]) && Beyond(SagaTurn(w, t), i);
    }
    hide SagaRuns.Deal, Finalises, SettlerOk, CashOk, ShiftOk, Apart, RowsApart;
  }

  lemma SagaKeeps(w: World, t: SagaRuns.Turn)
    requires Inv(w)
    ensures Inv(SagaTurn(w, t))
  {
    var w2 := SagaTurn(w, t);
    assert w2.drawers == w.drawers;
    SagaApart(w, t);
    SagaSize(w, t);
    forall i: nat ensures SettlerOk(w2, i) { BeyondStays(w, t, i); }
    forall n: nat ensures RowOk(w2, n) { SagaRow(w, t, n); }
    forall s: ShiftId ensures ShiftOk(w2, s) {
      SagaSums(w, t, At(s));
      assert ShiftOk(w, s);
    }
    forall scope: Scope ensures CashOk(w2, scope) {
      SagaSums(w, t, scope);
      assert CashOk(w, scope);
    }
    SagaCash(w, t);
    hide SagaTurn, SettlerOk, Apart, RowOk, CashOf, Sum, RowsApart;
  }

  // ---- the drawer keeps it ---------------------------------------------------------------------

  lemma OpenKeeps(w: World, s: ShiftId, float: nat)
    requires Inv(w)
    ensures Inv(Deal(w, OpenShift(s, float)))
  {
    var w2 := Deal(w, OpenShift(s, float));
    assert forall i: nat :: Beyond(w, i) <==> Beyond(w2, i);
    forall i: nat ensures SettlerOk(w2, i) { assert SettlerOk(w, i); }
    forall n: nat ensures RowOk(w2, n) { assert RowOk(w, n); }
    forall z: ShiftId ensures ShiftOk(w2, z) { assert ShiftOk(w, z); }
    forall scope: Scope ensures CashOk(w2, scope) { assert CashOk(w, scope); }
    hide Movements, Variances, Sum, CashOf;
  }

  /** No late row belongs to a shift that is open. */
  lemma NoneLate(w: World, s: ShiftId)
    requires Inv(w) && s in w.drawers.shifts && w.drawers.shifts[s].status == OPEN
    ensures Sum(Rowed(At(s)), w.settlers) == Sum(Counted(At(s)), w.settlers)
  {
    AllAmounts(w);
    SumSplits(At(s), w.settlers);
    forall x | x in w.settlers ensures Late(At(s))(x) == 0 {
      var i: nat :| i < |w.settlers| && w.settlers[i] == x;
      assert SettlerOk(w, i);
    }
    SumZeroIff(Late(At(s)), w.settlers);
    hide Inv;
  }

  lemma AllAmounts(w: World)
    requires Inv(w)
    ensures AmountsOk(w.settlers)
  {
    forall x | x in w.settlers ensures exists total: int :: Amounts(x, total) {
      var i: nat :| i < |w.settlers| && w.settlers[i] == x;
      assert SettlerOk(w, i);
    }
  }

  lemma CloseKeeps(w: World, s: ShiftId, counted: int)
    requires Inv(w)
    ensures Inv(Deal(w, CloseShift(s, counted)))
  {
    hide Movements, Variances, Sum, CashOf, VariancePostings, Lines, Amounts;
    var w2 := Deal(w, CloseShift(s, counted));
    assert forall i: nat :: Beyond(w, i) <==> Beyond(w2, i);
    forall i: nat ensures SettlerOk(w2, i) { assert SettlerOk(w, i); }
    forall n: nat ensures RowOk(w2, n) { assert RowOk(w, n); }
    forall scope: Scope ensures CashOk(w2, scope) {
      CloseMoves(w.drawers, s, counted, scope);
      assert CashOk(w, scope);
    }
    forall z: ShiftId ensures ShiftOk(w2, z) {
      CloseMoves(w.drawers, s, counted, At(z));
      assert ShiftOk(w, z) && CashOk(w, At(s));
      if s in w.drawers.shifts && w.drawers.shifts[s].status == OPEN { NoneLate(w, s); }
    }
  }

  lemma RowIsNew(w: World, i: nat)
    requires Inv(w) && Inserts(w, i)
    ensures forall n :: 0 <= n < |w.drawers.cash| ==> w.drawers.cash[n].booking != Some(JobOf(w, i).booking)
  {
    assert SettlerOk(w, i);
    forall n: nat | n < |w.drawers.cash| ensures w.drawers.cash[n].booking != Some(JobOf(w, i).booking) {
      assert RowOk(w, n);
      if w.drawers.cash[n].booking.Some? {
        var j: nat :| Beyond(w, j) && Rows(w.settlers[j]) && JobOf(w, j).booking == w.drawers.cash[n].booking.value;
        assert Beyond(w, i) && i != j;
      }
    }
  }

  /** The row and the history of its settlement grow by the same amount. */
  lemma InsertSums(w: World, i: nat, scope: Scope)
    requires Inv(w) && Inserts(w, i)
    ensures var w2 := InsertRow(w, i);
      && w2.drawers.writedowns == w.drawers.writedowns && w2.drawers.shifts == w.drawers.shifts
      && Movements(w2.drawers.cash, scope) - Movements(w.drawers.cash, scope) == Sum(Rowed(scope), w2.settlers) - Sum(Rowed(scope), w.settlers)
      && Sum(Posted(scope), w2.settlers) == Sum(Posted(scope), w.settlers)
      && (scope.At? && (scope.s in w.drawers.shifts ==> w.drawers.shifts[scope.s].status != OPEN) ==>
            Sum(Counted(scope), w2.settlers) == Sum(Counted(scope), w.settlers))
  {
    var x, x2, b := w.settlers[i], InsertRow(w, i).settlers[i], JobOf(w, i).booking;
    assert SettlerOk(w, i);
    MovementsNext(w.drawers.cash, CashRow(x.shift.value, Some(b), w.saga.shop.bookings[b].total), scope);
    SumUpdate(Rowed(scope), w.settlers, i, x2);
    SumUpdate(Posted(scope), w.settlers, i, x2);
    SumUpdate(Counted(scope), w.settlers, i, x2);
    hide Inv, Movements, Sum;
  }

  lemma InsertKeeps(w: World, i: nat)
    requires Inv(w) && Inserts(w, i)
    ensures Inv(InsertRow(w, i))
  {
    var w2 := InsertRow(w, i);
    assert SettlerOk(w, i);
    RowIsNew(w, i);
    assert forall j: nat :: Beyond(w2, j) ==> Beyond(w, j);
    forall j: nat ensures SettlerOk(w2, j) { assert SettlerOk(w, j); }
    forall n: nat ensures RowOk(w2, n) { InsertedRow(w, i, n); }
    forall s: ShiftId ensures ShiftOk(w2, s) {
      InsertSums(w, i, At(s));
      assert ShiftOk(w, s);
    }
    forall scope: Scope ensures CashOk(w2, scope) {
      InsertSums(w, i, scope);
      assert CashOk(w, scope);
    }
    InsertSums(w, i, Everywhere);
    hide Movements, Variances, Sum, CashOf, RowOk;
  }

  lemma InsertedRow(w: World, i: nat, n: nat)
    requires Inv(w) && Inserts(w, i)
    ensures RowOk(InsertRow(w, i), n)
  {
    var w2 := InsertRow(w, i);
    assert SettlerOk(w, i) && RowOk(w, n);
    if n < |w.drawers.cash| && w.drawers.cash[n].booking.Some? {
      var j: nat :| Beyond(w, j) && Rows(w.settlers[j]) && JobOf(w, j).booking == w.drawers.cash[n].booking.value;
      assert i != j && Beyond(w2, j) && Rows(w2.settlers[j]);
    } else if n < |w2.drawers.cash| && n >= |w.drawers.cash| {
      assert Beyond(w, i) && Beyond(w2, i) && Rows(w2.settlers[i]);
    }
    hide Movements, Variances, Sum, CashOf;
  }

  lemma DealKeeps(w: World, t: Turn)
    requires Inv(w)
    ensures Inv(Deal(w, t))
  {
    hide Inv, SagaTurn, InsertRow;
    match t
    case Saga(t) => SagaKeeps(w, t);
    case Insert(i) => if Inserts(w, i) { InsertKeeps(w, i); }
    case OpenShift(s, float) => OpenKeeps(w, s, float);
    case CloseShift(s, counted) => CloseKeeps(w, s, counted);
  }

  // ---- the theorems ------------------------------------------------------------------------------

  lemma OpeningOk(db: Db, jobs: seq<Job>, shifts: seq<Option<ShiftId>>)
    requires |shifts| == |jobs|
    ensures Inv(Opening(db, jobs, shifts))
  {
    var w := Opening(db, jobs, shifts);
    assert forall i: nat :: !Beyond(w, i);
    forall scope: Scope ensures Sum(Rowed(scope), w.settlers) == 0 { NothingYet(w.settlers, Rowed(scope)); }
    NothingYet(w.settlers, Posted(Everywhere));
    forall i: nat ensures SettlerOk(w, i) {}
  }

  lemma {:induction false} NothingYet(xs: seq<Settler>, f: Settler -> int)
    requires forall x :: x in xs ==> f(x) == 0
    ensures Sum(f, xs) == 0
  {
    if xs != [] {
      assert forall x :: x in xs[..|xs| - 1] ==> x in xs;
      NothingYet(xs[..|xs| - 1], f);
    }
  }

  lemma {:induction false} PlayKeeps(w: World, turns: seq<Turn>)
    requires Inv(w)
    ensures Inv(Play(w, turns))
    decreases |turns|
  {
    hide Inv, Deal;
    if turns != [] {
      DealKeeps(w, turns[0]);
      PlayKeeps(Deal(w, turns[0]), turns[1..]);
    }
  }

  /** Account 1001 as far as a shift, or all of them, is concerned: the cash journals of the settlements that name
      it, and its written down variance. */
  function CashAccount(w: World, scope: Scope): int { Sum(Posted(scope), w.settlers) + Variances(w.drawers.writedowns,
          scope) }

  /** In every reachable state, for every shift and over all: account 1001 is what moved in the drawer, and the
      journals without a row, less the rows without a journal. Over all it is the account of the whole ledger. */
  lemma DayBalances(db: Db, jobs: seq<Job>, shifts: seq<Option<ShiftId>>, turns: seq<Turn>, scope: Scope)
    requires |shifts| == |jobs|
    ensures var w := Play(Opening(db, jobs, shifts), turns);
      && CashAccount(w, scope) == Movements(w.drawers.cash, scope) + Sum(Unrowed(scope), w.settlers) - Sum(Unposted(scope), w.settlers)
      && CashOf(w.saga.shop.journals) + Variances(w.drawers.writedowns, Everywhere) == CashAccount(w, Everywhere)
  {
    var w := Play(Opening(db, jobs, shifts), turns);
    OpeningOk(db, jobs, shifts);
    PlayKeeps(Opening(db, jobs, shifts), turns);
    AllAmounts(w);
    SumSplits(scope, w.settlers);
    assert CashOk(w, scope);
    hide Play, Opening, Sum, Variances, Movements, CashOf;
  }

  /** No booking has two cash rows, nor two settlements in cash that got past the payment row. */
  lemma OneRowPerSale(db: Db, jobs: seq<Job>, shifts: seq<Option<ShiftId>>, turns: seq<Turn>)
    requires |shifts| == |jobs|
    ensures var w := Play(Opening(db, jobs, shifts), turns); RowsApart(w.drawers.cash) && Apart(w)
  {
    OpeningOk(db, jobs, shifts);
    PlayKeeps(Opening(db, jobs, shifts), turns);
    hide Play, Opening;
  }

  /** Every row of the shift was inserted before the close. */
  predicate OnTime(xs: seq<Settler>, s: ShiftId) { forall x :: x in xs && x.shift == Some(s) ==> x.late == 0 }

  /** Every row of the shift has its journal, every journal its row, and the row lies before the close. */
  predicate Paired(xs: seq<Settler>, s: ShiftId) {
    forall x :: x in xs && x.shift == Some(s) ==> x.posted == x.counted && x.late == 0
  }

  /** What a close leaves for good, exactly. The drawer holds what was counted, and any rows that came later;
      account 1001 moved by what was counted less the float, and the journals whose row the count missed,
      less the counted rows without a journal. So the drawer is conserved exactly when no row came late, the
      account exactly when those two sums agree, and both exactly when every row has its journal, every
      journal its row and all lie before the close, unless faults of both kinds hide each other. */
  lemma DrawerIsConservedIff(db: Db, jobs: seq<Job>, shifts: seq<Option<ShiftId>>, turns: seq<Turn>, s: ShiftId)
    requires |shifts| == |jobs|
    requires var d := Play(Opening(db, jobs, shifts), turns).drawers; s in d.shifts && d.shifts[s].status != OPEN
    ensures var w := Play(Opening(db, jobs, shifts), turns); var d, xs := w.drawers, w.settlers;
      var float, counted, drawer, account := d.shifts[s].float, d.shifts[s].counted, Movements(d.cash, At(s)), CashAccount(w, At(s));
      var late, lost, extra := Sum(Late(At(s)), xs), Sum(Lost(At(s)), xs), Sum(Extra(At(s)), xs);
      && float + drawer == counted + late && account == counted - float + lost - extra
      && (float + drawer == counted <==> OnTime(xs, s))
      && (account == counted - float <==> lost == extra)
      && (lost == 0 || extra == 0 ==> (float + drawer == counted && account == counted - float <==> Paired(xs, s)))
      && (late == lost == extra == 0 <==> Paired(xs, s))
      && forall again :: Close(d, s, again) == d
  {
    var w := Play(Opening(db, jobs, shifts), turns);
    OpeningOk(db, jobs, shifts);
    PlayKeeps(Opening(db, jobs, shifts), turns);
    hide Play, Opening;
    AllAmounts(w);
    SumSplits(At(s), w.settlers);
    assert CashOk(w, At(s)) && ShiftOk(w, s);
    Faults(w.settlers, s);
    hide Inv, Sum, Variances, Movements, AmountsOk;
  }

  lemma Faults(xs: seq<Settler>, s: ShiftId)
    requires AmountsOk(xs)
    ensures Sum(Late(At(s)), xs) == 0 <==> OnTime(xs, s)
    ensures Sum(Late(At(s)), xs) == Sum(Lost(At(s)), xs) == Sum(Extra(At(s)), xs) == 0 <==> Paired(xs, s)
  {
    SumZeroIff(Late(At(s)), xs);
    SumZeroIff(Lost(At(s)), xs);
    SumZeroIff(Extra(At(s)), xs);
    if Sum(Late(At(s)), xs) == Sum(Lost(At(s)), xs) == Sum(Extra(At(s)), xs) == 0 {
      forall x | x in xs && x.shift == Some(s) ensures x.posted == x.counted && x.late == 0 {
        assert Late(At(s))(x) == Lost(At(s))(x) == Extra(At(s))(x) == 0;
        var total: int :| Amounts(x, total);
      }
    }
  }

  /** The shift is closed between the journal of a settlement and its cash row. Whatever is counted, the drawer ends
      with the gross too much; and if the cash that was taken is counted, it is written up as a variance and
      account 1001 is debited twice. */
  lemma CloseBetweenCommits(w: World, i: nat, counted: int)
    requires Inv(w) && Inserts(w, i) && w.settlers[i].posted > 0
    requires Usable(w.drawers, w.settlers[i].shift) && w.drawers.shifts[w.settlers[i].shift.value].status == OPEN
    ensures var s, gross := w.settlers[i].shift.value, w.settlers[i].posted;
      var w2 := Play(w, [CloseShift(s, counted), Insert(i)]);
      && s in w2.drawers.shifts && w2.drawers.shifts[s].float + Movements(w2.drawers.cash, At(s)) == counted + gross
      && (counted == w.drawers.shifts[s].float + Movements(w.drawers.cash, At(s)) + gross ==>
            w2.drawers.shifts[s].variance == gross && CashAccount(w2, At(s)) == CashAccount(w, At(s)) + gross)
      && gross == TotalOf(w.saga.shop, JobOf(w, i).booking) > 0
  {
    var s, t := w.settlers[i].shift.value, CloseShift(w.settlers[i].shift.value, counted);
    var w1 := Deal(w, t);
    var turns := [t, Insert(i)];
    assert turns[1..] == [Insert(i)] && turns[1..][1..] == [];
    assert Play(w, turns) == Play(w1, [Insert(i)]) == Deal(w1, Insert(i));
    hide Movements, Variances, Sum, Play, VariancePostings, Lines, CashOf;
    assert SettlerOk(w, i);
    CloseMoves(w.drawers, s, counted, At(s));
    CloseKeeps(w, s, counted);
    InsertSums(w1, i, At(s));
    MovementsNext(w1.drawers.cash, CashRow(s, Some(JobOf(w, i).booking), w.settlers[i].posted), At(s));
    hide Inv;
  }

  // ---- when a shift may be closed ---------------------------------------------------------------

  /** No settlement that names the shift has anything left to do, and none came late. */
  ghost predicate Quiet(w: World, s: ShiftId) {
    forall i: nat :: i < |w.settlers| && i < |w.saga.processes| && w.settlers[i].shift == Some(s) ==>
      w.saga.processes[i].phase == Done && !w.settlers[i].owes && w.settlers[i].late == 0
  }

  /** The drawer of a closed shift holds what was counted. */
  predicate Holds(w: World, s: ShiftId, counted: int) {
    && s in w.drawers.shifts && w.drawers.shifts[s].status != OPEN && w.drawers.shifts[s].counted == counted
    && w.drawers.shifts[s].float + Movements(w.drawers.cash, At(s)) == counted
  }

  lemma QuietStays(w: World, t: Turn, s: ShiftId)
    requires Inv(w) && Quiet(w, s)
    ensures Quiet(Deal(w, t), s)
  {
    var w2 := Deal(w, t);
    forall i: nat | i < |w2.settlers| && i < |w2.saga.processes| && w2.settlers[i].shift == Some(s)
      ensures w2.saga.processes[i].phase == Done && !w2.settlers[i].owes && w2.settlers[i].late == 0
    {
      if t.Saga? {
        SagaSize(w, t.t);
        SagaStep(w.saga, t.t, i);
        SagaSettler(w, t.t, i);
      }
    }
    hide SagaRuns.Deal, SagaTurn, Gross, Movements, VariancePostings;
  }

  lemma ClosedStays(w: World, t: Turn, s: ShiftId)
    requires s in w.drawers.shifts && w.drawers.shifts[s].status != OPEN
    ensures s in Deal(w, t).drawers.shifts && Deal(w, t).drawers.shifts[s] == w.drawers.shifts[s]
  {
    hide SagaRuns.Deal, Finalises, Gross, Movements, VariancePostings, Lines;
  }

  lemma QuietHolds(w: World, s: ShiftId)
    requires Inv(w) && Quiet(w, s) && s in w.drawers.shifts && w.drawers.shifts[s].status != OPEN
    ensures Holds(w, s, w.drawers.shifts[s].counted)
  {
    AllAmounts(w);
    SumSplits(At(s), w.settlers);
    forall x | x in w.settlers ensures Late(At(s))(x) == 0 {
      var i: nat :| i < |w.settlers| && w.settlers[i] == x;
    }
    SumZeroIff(Late(At(s)), w.settlers);
    assert CashOk(w, At(s)) && ShiftOk(w, s);
    hide Inv, Movements, Variances, Sum;
  }

  lemma {:induction false} QuietRunHolds(w: World, turns: seq<Turn>, s: ShiftId)
    requires Inv(w) && Quiet(w, s) && s in w.drawers.shifts && w.drawers.shifts[s].status != OPEN
    ensures Holds(Play(w, turns), s, w.drawers.shifts[s].counted)
    decreases |turns|
  {
    hide Inv, Quiet, Deal, Holds;
    if turns == [] {
      QuietHolds(w, s);
    } else {
      DealKeeps(w, turns[0]);
      QuietStays(w, turns[0], s);
      ClosedStays(w, turns[0], s);
      QuietRunHolds(Deal(w, turns[0]), turns[1..], s);
    }
  }

  /** The row that is owed comes after the close. */
  lemma OwedComesLate(w: World, i: nat, counted: int)
    requires Inv(w) && Inserts(w, i) && w.settlers[i].shift.value in w.drawers.shifts
    requires w.drawers.shifts[w.settlers[i].shift.value].status == OPEN
    ensures var s := w.settlers[i].shift.value; !Holds(Play(Deal(w, CloseShift(s, counted)), [Insert(i)]), s, counted)
  {
    var s := w.settlers[i].shift.value;
    var w1, b := Deal(w, CloseShift(s, counted)), JobOf(w, i).booking;
    assert [Insert(i)][1..] == [];
    assert Play(w1, [Insert(i)]) == Deal(w1, Insert(i));
    assert SettlerOk(w, i) && Beyond(w, i);
    CloseMoves(w.drawers, s, counted, At(s));
    MovementsNext(w1.drawers.cash, CashRow(s, Some(b), TotalOf(w.saga.shop, b)), At(s));
    hide Inv, Movements, Variances, Play, VariancePostings;
  }

  /** Once every settlement that names the shift has issued its ticket or stopped, closing the shift keeps its
      drawer at what was counted, whatever happens afterwards, exactly when none of them has yet to insert
      its cash row. */
  lemma MayCloseIff(w: World, s: ShiftId, counted: int)
    requires Inv(w) && s in w.drawers.shifts && w.drawers.shifts[s].status == OPEN
    requires forall i: nat :: i < |w.settlers| && w.settlers[i].shift == Some(s) ==> w.saga.processes[i].phase == Done
    ensures (forall turns: seq<Turn> :: Holds(Play(Deal(w, CloseShift(s, counted)), turns), s, counted))
            <==> forall x :: x in w.settlers && x.shift == Some(s) ==> !x.owes
  {
    var w1 := Deal(w, CloseShift(s, counted));
    hide Holds, Play, Finalises, Gross, SagaRuns.Deal, Close;
    if forall x :: x in w.settlers && x.shift == Some(s) ==> !x.owes {
      forall i: nat | i < |w.settlers| && w.settlers[i].shift == Some(s) ensures w.settlers[i].late == 0 { assert SettlerOk(w, i); }
      CloseKeeps(w, s, counted);
      ClosesNow(w, s, counted);
      assert Quiet(w1, s);
      hide Inv, Quiet;
      forall turns: seq<Turn> ensures Holds(Play(w1, turns), s, counted) { QuietRunHolds(w1, turns, s); }
    } else {
      var i: nat :| i < |w.settlers| && w.settlers[i].shift == Some(s) && w.settlers[i].owes;
      assert SettlerOk(w, i) && Beyond(w, i);
      OwedComesLate(w, i, counted);
    }
  }

  lemma ClosesNow(w: World, s: ShiftId, counted: int)
    requires s in w.drawers.shifts && w.drawers.shifts[s].status == OPEN
    ensures var d := Deal(w, CloseShift(s, counted)).drawers; s in d.shifts && d.shifts[s].status != OPEN && d.shifts[s].counted == counted
  {
    hide Movements, VariancePostings, Lines;
  }
}

/** SettleCounterSale and CloseShift, statement by statement. */
module Drawer {
  import opened Wrappers
  import opened Inventory
  import opened InventoryStore
  import opened Ledger
  import opened SagaTables
  import opened Commerce
  import opened SagaRuns
  import opened Payments
  import opened Settlement
  import opened CashDrawer
  import DrawerRuns

  /** One settlement in cash, before its first statement. */
  function Start(db: Db, shop: Shop, d: Drawers, b: BookingId, shift: Option<ShiftId>): DrawerRuns.World {
    DrawerRuns.World.World(Alone(db, shop, CounterSale(b, CASH)), d, [DrawerRuns.Settler(shift, false, 0, 0, 0)])
  }

  function Four(w: DrawerRuns.World): DrawerRuns.World {
    Step1(Step1(Step1(Step1(w))))
  }

  function Step1(w: DrawerRuns.World): DrawerRuns.World { DrawerRuns.Deal(w, DrawerRuns.Saga(Run(0))) }

  lemma EarlyStep(w: DrawerRuns.World)
    requires !DrawerRuns.Finalises(w.saga, 0)
    ensures Step1(w) == w.(saga := Next(w.saga))
  {
    hide SagaRuns.Deal;
  }

  function Midway(db: Db, shop: Shop, d: Drawers, b: BookingId, shift: Option<ShiftId>,
          phase: Phase): DrawerRuns.World {
    Start(db, shop, d, b, shift).(saga := SagaRuns.World.World(db, shop, [Process(CounterSale(b, CASH), phase)], {}))
  }

  lemma TotalStays(shop: Shop, b: BookingId, postings: seq<Posting>)
    requires b in shop.bookings
    ensures var shop2 := SagaTables.Finalise(shop, b, postings); b in shop2.bookings && shop2.bookings[b].total == shop.bookings[b].total
  {
    hide Journal, Issue;
  }

  lemma RefusedSettles(db: Db, shop: Shop, d: Drawers, b: BookingId, shift: Option<ShiftId>)
    ensures Step1(Midway(db, shop, d, b, shift, Done)) == Midway(db, shop, d, b, shift, Done)
    ensures Next(Midway(db, shop, d, b, shift, Done).saga) == Midway(db, shop, d, b, shift, Done).saga
  {
    RefusedStaysDone(db, shop, CounterSale(b, CASH));
    EarlyStep(Midway(db, shop, d, b, shift, Done));
    hide Next, Step1;
  }

  /** The last two statements, for a pending booking that was just paid. */
  lemma PaidSettles(db: Db, shop: Shop, d: Drawers, b: BookingId, shift: Option<ShiftId>)
    requires b in shop.bookings && shop.bookings[b].status == PAYMENT_PENDING
    ensures var w, k := Midway(db, shop, d, b, shift, Confirming), shop.bookings[b]; var w2 := Step1(Step1(w));
      && w2.saga == Next(Next(w.saga)) && w2.drawers == d && |w2.settlers| == 1 && w2.settlers[0].shift == shift
      && (w2.settlers[0].owes <==> ConfirmHold(db, k.hold).out == Ok && Journal(CounterPostings(k.total, true)).Some? && shift.Some?)
      && b in w2.saga.shop.bookings && w2.saga.shop.bookings[b].total == k.total
  {
    var job, k, w := CounterSale(b, CASH), shop.bookings[b], Midway(db, shop, d, b, shift, Confirming);
    var r := Step(db, OpConfirm(k.hold));
    assert r == ConfirmHold(db, k.hold);
    TotalStays(shop, b, CounterPostings(k.total, true));
    hide Step, ConfirmHold, SagaTables.Finalise, CounterPostings, Journal, Next;
    ConfirmStep(db, shop, job);
    EarlyStep(w);
    if r.out == Ok {
      FinishStep(r.db, shop, job);
      assert Step1(w) == Midway(r.db, shop, d, b, shift, Finishing);
    } else {
      RefusedSettles(r.db, shop, d, b, shift);
    }
  }

  /** Undisturbed, the steps of a settlement in cash are those of its process, and it owes its row exactly if no
      step returned an error and it names a shift. */
  lemma SettlesAlone(db: Db, shop: Shop, d: Drawers, b: BookingId, shift: Option<ShiftId>)
    ensures var job := CounterSale(b, CASH); var w := Four(Start(db, shop, d, b, shift));
      && w.saga == Next(Next(Next(Next(Alone(db, shop, job))))) && w.drawers == d && |w.settlers| == 1
      && (w.settlers[0].owes <==> Accepts(db, shop, job) && shift.Some?) && w.settlers[0].shift == shift
      && (Accepts(db, shop, job) ==> b in w.saga.shop.bookings && b in shop.bookings && w.saga.shop.bookings[b].total == shop.bookings[b].total)
  {
    var job := CounterSale(b, CASH);
    AdmitStep(db, shop, job);
    AdmitIff(shop, job);
    if b in shop.bookings {
      AcceptedIff(job, shop.bookings[b]);
      InsertsIff(shop, job, shop.bookings[b]);
    }
    EarlyStep(Midway(db, shop, d, b, shift, Begin));
    RefusedSettles(db, shop, d, b, shift);
    if Admit(shop, job) == Paying {
      var p := Payment(b, shop.bookings[b].total);
      PayStep(db, shop, job);
      EarlyStep(Midway(db, shop, d, b, shift, Paying));
      if SagaTables.Inserts(shop, KeyOf(job), p) { PaidSettles(db, Pay(shop, KeyOf(job), p), d, b, shift); }
    }
    hide Next, Step1, ConfirmHold, Journal, CounterPostings;
  }

  /** With the cash row as the last step. */
  lemma SettlesInCash(db: Db, shop: Shop, d: Drawers, b: BookingId, shift: Option<ShiftId>)
    ensures var job := CounterSale(b, CASH); var w := DrawerRuns.Deal(Four(Start(db, shop, d, b, shift)), DrawerRuns.Insert(0));
      && w.saga == Next(Next(Next(Next(Alone(db, shop, job)))))
      && (Accepts(db, shop, job) ==> b in shop.bookings && w.drawers == Draw(d, shift, b, shop.bookings[b].total))
      && (!Accepts(db, shop, job) ==> w.drawers == d)
  {
    SettlesAlone(db, shop, d, b, shift);
    JobStays(Alone(db, shop, CounterSale(b, CASH)));
    JobStays(Next(Alone(db, shop, CounterSale(b, CASH))));
    JobStays(Next(Next(Alone(db, shop, CounterSale(b, CASH)))));
    JobStays(Next(Next(Next(Alone(db, shop, CounterSale(b, CASH))))));
    hide Next, Four, Start, Accepts;
  }

  lemma JobStays(w: SagaRuns.World)
    requires |w.processes| == 1
    ensures |Next(w).processes| == 1 && Next(w).processes[0].job == w.processes[0].job
  {
    JobsStay(w, Run(0), 0);
  }

  class Till {
    const channels: Channels
    var shifts: map<ShiftId, Shift>
    var cash: seq<CashRow>
    var writedowns: seq<Writedown>

    function Now(): Drawers
      reads this
    {
      Drawers(shifts, cash, writedowns)
    }

    constructor (channels: Channels)
      ensures this.channels == channels && Now() == NO_DRAWERS
    {
      this.channels, shifts, cash, writedowns := channels, map[], [], [];
    }

    method OpenShift(s: ShiftId, float: nat) returns (ok: bool)
      modifies this`shifts
      ensures ok == (s !in old(shifts)) && Now() == Open(old(Now()), s, float)
      ensures shifts == if ok then old(shifts)[s := Shift(OPEN, float, 0, 0, 0)] else old(shifts)
    {
      if s in shifts { return false; }
      shifts := shifts[s := Shift(OPEN, float, 0, 0, 0)];
      return true;
    }

    /** SettleCounterSale in cash: check, payment row, seats, ticket with journal, and last the cash row, each
        a commit of its own. An id that is no shift fails when the rest has been committed. */
    method SettleCashSale(b: BookingId, shift: Option<ShiftId>) returns (ok: bool)
      modifies this`cash, channels.inv, channels.desk
      ensures var db, shop := old(channels.inv.Tables()), old(channels.desk.Tables());
        var w := DrawerRuns.Deal(Four(Start(db, shop, old(Now()), b, shift)), DrawerRuns.Insert(0));
        && channels.inv.Tables() == w.saga.db && channels.desk.Tables() == w.saga.shop && Now() == w.drawers
        && (ok <==> Accepts(db, shop, CounterSale(b, CASH)) && Usable(old(Now()), shift))
        && (Accepts(db, shop, CounterSale(b, CASH)) ==>
              Ticketed(channels.desk.Tables(), b) && b in shop.bookings && Now() == Draw(old(Now()), shift, b, shop.bookings[b].total))
        && (!Accepts(db, shop, CounterSale(b, CASH)) ==> Now() == old(Now()))
    {
      SettlesInCash(channels.inv.Tables(), channels.desk.Tables(), Now(), b, shift);
      hide Next, Four, Start, Accepts, DrawerRuns.Deal;
      var gross := if b in channels.desk.bookings then channels.desk.bookings[b].total else 0;
      var accepted := channels.Settle(CounterSale(b, CASH));
      if !accepted { return false; }
      if shift.Some? {
        if shift.value !in shifts { return false; }
        cash := cash + [CashRow(shift.value, Some(b), gross)];
      }
      return true;
    }

    method CloseShift(s: ShiftId, counted: int) returns (r: Count)
      modifies this
      ensures Now() == Close(old(Now()), s, counted)
      ensures s !in old(shifts) || old(shifts)[s].status != OPEN ==> r == ErrShiftNotOpen && Now() == old(Now())
      ensures s in old(shifts) && old(shifts)[s].status == OPEN ==>
        var expected := old(shifts)[s].float + Movements(old(cash), At(s));
        && shifts == old(shifts)[s := Shift(if counted == expected then BALANCED else VARIANCE, old(shifts)[s].float, counted, expected, counted - expected)]
        && r == Closed(expected, counted - expected, shifts[s].status)
        && cash == (if counted == expected then old(cash) else old(cash) + [CashRow(s, None, counted - expected)])
    {
      hide Journal, Total, Net, Movements, Lines, VariancePostings;
      if s !in shifts || shifts[s].status != OPEN { return ErrShiftNotOpen; }
      var float := shifts[s].float;
      var expected := float + Movements(cash, At(s));
      var variance := counted - expected;
      var status := if variance == 0 then BALANCED else VARIANCE;
      shifts := shifts[s := Shift(status, float, counted, expected, variance)];
      VarianceBalances(variance);
      if variance != 0 {
        cash := cash + [CashRow(s, None, variance)];
        writedowns := writedowns + [Writedown(s, Journal(VariancePostings(variance)).value)];
      }
      return Closed(expected, variance, status);
    }
  }
}
