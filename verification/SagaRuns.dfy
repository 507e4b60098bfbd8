/** The saga under interleaving: webhooks (also duplicated ones), counter and agent settlements,
    cancellations and refunds run as separate processes whose commits mix in any order with each
    other, with every inventory operation, and with crashes between any two commits. */
module SagaRuns {
  import opened Wrappers
  import opened Bits
  import opened Inventory
  import opened Ownership
  import opened Laws
  import opened Ledger
  import opened SagaTables

  datatype Job =
    | Webhook(booking: BookingId, key: PayKey, amount: int, bdt: bool, signed: bool)
    | CounterSale(booking: BookingId, instrument: Provider)
    | AgentSale(booking: BookingId)
    | Cancellation(booking: BookingId, pct: int, departed: bool)
    | RefundCallback(booking: BookingId)

  /** Where the process stands, between two commits. */
  datatype Phase = Begin | Paying | Confirming | Finishing | Releasing | Refunding | Settling(row: nat) | Done

  datatype Process = Process(job: Job, phase: Phase)

  /** `freed` lists the bookings whose seats a cancellation has given back. */
  datatype World = World(db: Db, shop: Shop, processes: seq<Process>, freed: set<BookingId>)

  /** `Pick` is a refund callback whose query returns row `n`: any REQUESTED row of the booking may come first. */
  datatype Turn = Run(i: nat) | Pick(i: nat, n: nat) | Crash(i: nat) | Elsewhere(op: Op) | Create(b: BookingId, k: Booking)

  predicate Sells(job: Job) { job.Webhook? || job.CounterSale? || job.AgentSale? }

  function KeyOf(job: Job): PayKey
    requires Sells(job)
  {
    match job
    case Webhook(_, key, _, _, _) => key
    case CounterSale(b, instrument) => PayKey(instrument, b)
    case AgentSale(b) => PayKey(AGENT_WALLET, b)
  }

  function AmountOf(job: Job, k: Booking): int { if job.Webhook? then job.amount else k.total }

  function PostingsOf(job: Job, k: Booking): seq<Posting>
    requires Sells(job)
  {
    match job
    case Webhook(_, _, amount, _, _) =>
      if k.instead.Some? then ReschedulePostings(k.instead.value, k.total) else GatewayPostings(amount)
    case CounterSale(_, instrument) => CounterPostings(k.total, instrument == CASH)
    case AgentSale(_) => AgentPostings(k.total)
  }

  // ---- one step of one process -------------------------------------------------------------

  /** The checks before the first write. */
  function Admit(shop: Shop, job: Job): Phase {
    if job.booking !in shop.bookings then Done
    else
      var k := shop.bookings[job.booking];
      match job
      case Webhook(_, _, amount, bdt, signed) => if signed && bdt && Expected(k) == amount then Paying else Done
      case Cancellation(_, _, departed) => if k.status == TICKETED && !departed then Releasing else Done
      case RefundCallback(b) => Requested(shop.refunds, b)
      case _ => if k.status == PAYMENT_PENDING then Paying else Done
  }

  /** A REQUESTED refund row of the booking. */
  function Requested(refunds: seq<RefundRow>, b: BookingId): Phase {
    if refunds == [] then Done
    else
      var n := |refunds| - 1;
      if refunds[n].booking == b && refunds[n].requested then Settling(n) else Requested(refunds[..n], b)
  }

  function Goto(w: World, i: nat, phase: Phase): World
    requires i < |w.processes|
  {
    w.(processes := w.processes[i := w.processes[i].(phase := phase)])
  }

  function Advance(w: World, i: nat): World
    requires i < |w.processes|
  {
    var job := w.processes[i].job;
    var b := job.booking;
    if w.processes[i].phase == Begin then Goto(w, i, Admit(w.shop, job))
    else if b !in w.shop.bookings then Goto(w, i, Done)
    else
      var k := w.shop.bookings[b];
      match w.processes[i].phase
      case Paying =>
        if !Sells(job) || !Inserts(w.shop, KeyOf(job), Payment(b, AmountOf(job, k))) then Goto(w, i, Done)
        else Goto(w, i, Confirming).(shop := Pay(w.shop, KeyOf(job), Payment(b, AmountOf(job, k))))
      case Confirming =>
        var r := Step(w.db, OpConfirm(k.hold));
        Goto(w, i, if r.out == Ok then Finishing else Done).(db := r.db)
      case Finishing =>
        if !Sells(job) then Goto(w, i, Done) else Goto(w, i, Done).(shop := Finalise(w.shop, b, PostingsOf(job, k)))
      case Releasing =>
        var r := Step(w.db, OpUnsell(k.hold));
        if r.out == Ok then Goto(w, i, Refunding).(db := r.db, freed := w.freed + {b}) else Goto(w, i, Done)
      case Refunding =>
        if !job.Cancellation? then Goto(w, i, Done) else Goto(w, i, Done).(shop := Cancel(w.shop, b, job.pct))
      case Settling(row) => Goto(w, i, Done).(shop := SettleRow(w.shop, row))
      case _ => w
  }

  predicate Picks(w: World, p: Process, n: nat) {
    && p.job.RefundCallback? && p.phase == Begin && p.job.booking in w.shop.bookings
    && n < |w.shop.refunds| && w.shop.refunds[n].booking == p.job.booking && w.shop.refunds[n].requested
  }

  /** One booking per hold. */
  predicate NewHold(shop: Shop, h: HoldId) { forall c :: c in shop.bookings ==> shop.bookings[c].hold != h }

  function Deal(w: World, t: Turn): World {
    match t
    case Run(i) => if i < |w.processes| then Advance(w, i) else w
    case Pick(i, n) => if i < |w.processes| && Picks(w, w.processes[i], n) then Goto(w, i, Settling(n)) else w
    case Crash(i) => if i < |w.processes| then Goto(w, i, Done) else w
    case Elsewhere(op) => if !op.OpUnsell? && Guarded(w.db, op) then w.(db := Step(w.db, op).db) else w
    case Create(b, k) =>
      if b !in w.shop.bookings && k.status == PAYMENT_PENDING && NewHold(w.shop, k.hold) && Distinct(k.seats)
      then w.(shop := w.shop.(bookings := w.shop.bookings[b := k])) else w
  }

  function Play(w: World, turns: seq<Turn>): World
    decreases |turns|
  {
    if turns == [] then w else Play(Deal(w, turns[0]), turns[1..])
  }

  function Opening(db: Db, jobs: seq<Job>): World {
    World(db, NO_SHOP, seq(|jobs|, i requires 0 <= i < |jobs| => Process(jobs[i], Begin)), {})
  }

  // ---- what holds in every reachable state ---------------------------------------------------

  function SalesOf(journals: seq<Entry>, b: BookingId): nat {
    if journals == [] then 0
    else SalesOf(journals[..|journals| - 1], b) + if journals[|journals| - 1].booking == b && journals[|journals| - 1].reason == SALE then 1 else 0
  }

  function TimesTicketed(history: seq<(BookingId, BookingStatus)>, b: BookingId): nat {
    if history == [] then 0
    else TimesTicketed(history[..|history| - 1], b) + if history[|history| - 1] == (b, TICKETED) then 1 else 0
  }

  predicate Ticketed(shop: Shop, b: BookingId) { b in shop.bookings && shop.bookings[b].status != PAYMENT_PENDING }

  /** A booking that left PAYMENT_PENDING did so once, with one sale journal and one ticket per seat; others have none. */
  ghost predicate Recorded(shop: Shop, b: BookingId) {
    && SalesOf(shop.journals, b) == TimesTicketed(shop.history, b) == (if Ticketed(shop, b) then 1 else 0)
    && forall no :: TicketKey(b, no) in shop.tickets <==> Ticketed(shop, b) && no in shop.bookings[b].seats
  }

  ghost predicate Paid(shop: Shop, b: BookingId) {
    exists key :: key in shop.payments && shop.payments[key].booking == b
  }

  ghost predicate BookingOk(db: Db, shop: Shop, freed: set<BookingId>, b: BookingId) {
    && Recorded(shop, b)
    && (b in freed ==> b in shop.bookings)
    && (b in shop.bookings ==>
          var k := shop.bookings[b];
          && (b in freed ==> k.status != PAYMENT_PENDING && GivenBack(db, k.hold))
          && (b !in freed ==> k.status == PAYMENT_PENDING || (k.status == TICKETED && Confirmed(db, k.hold)))
          && (k.status != PAYMENT_PENDING ==> Paid(shop, b)))
  }

  predicate HasPaid(p: Process) { p.phase in {Confirming, Finishing} }

  ghost predicate ProcessOk(db: Db, shop: Shop, freed: set<BookingId>, p: Process) {
    var b := p.job.booking;
    && (p.phase != Begin && p.phase != Done ==> b in shop.bookings)
    && (p.phase in {Paying, Confirming, Finishing} ==> Sells(p.job))
    && (HasPaid(p) ==> KeyOf(p.job) in shop.payments && shop.payments[KeyOf(p.job)].booking == b)
    && (p.phase == Finishing ==> b in freed || Confirmed(db, shop.bookings[b].hold))
    && (p.phase in {Releasing, Refunding} ==> p.job.Cancellation? && !p.job.departed)
    && (p.phase == Releasing ==> Ticketed(shop, b))
    && (p.phase == Refunding ==> b in freed)
    && (p.phase.Settling? ==> p.job.RefundCallback? && p.phase.row < |shop.refunds| && shop.refunds[p.phase.row].booking == b)
  }

  ghost predicate HoldsApart(shop: Shop) {
    forall b, c :: b in shop.bookings && c in shop.bookings && b != c ==> shop.bookings[b].hold != shop.bookings[c].hold
  }

  /** No two processes got past the same payment. */
  ghost predicate PaidApart(processes: seq<Process>) {
    forall i, j :: 0 <= i < j < |processes| && HasPaid(processes[i]) && HasPaid(processes[j]) && Sells(processes[i].job) && Sells(processes[j].job) ==>
      KeyOf(processes[i].job) != KeyOf(processes[j].job)
  }

  /** Every journal has positive lines and balances; every refund is of a cancelled booking. */
  ghost predicate Audited(shop: Shop, freed: set<BookingId>) {
    && (forall e :: e in shop.journals ==> Balanced(e.lines) && forall p :: p in e.lines ==> p.amount > 0)
    && (forall r :: r in shop.refunds ==> r.booking in freed && (r.requested ==> r.amount > 0))
  }

  ghost predicate Inv(w: World) {
    && HoldsApart(w.shop) && PaidApart(w.processes) && Audited(w.shop, w.freed)
    && (forall b :: BookingOk(w.db, w.shop, w.freed, b))
    && (forall i :: 0 <= i < |w.processes| ==> ProcessOk(w.db, w.shop, w.freed, w.processes[i]))
  }

  // ---- holds under the inventory's operations ------------------------------------------------

  lemma ConfirmSucceeds(db: Db, h: HoldId)
    requires Step(db, OpConfirm(h)).out == Ok
    ensures Confirmed(Step(db, OpConfirm(h)).db, h)
  {
  }

  lemma UnsellGivesBack(db: Db, h: HoldId)
    requires Confirmed(db, h)
    ensures Step(db, OpUnsell(h)).out == Ok && GivenBack(Step(db, OpUnsell(h)).db, h)
  {
  }

  // ---- each step keeps the invariant ------------------------------------------------------------

  /** Inventory steps: nothing of the shop changes, and no hold of a booking is given back. */
  lemma InventoryKeeps(w: World, op: Op)
    requires Inv(w) && !op.OpUnsell?
    ensures Inv(w.(db := Step(w.db, op).db))
  {
    hide Step;
    var db2 := Step(w.db, op).db;
    forall b ensures BookingOk(db2, w.shop, w.freed, b) {
      assert BookingOk(w.db, w.shop, w.freed, b);
      if b in w.shop.bookings && w.shop.bookings[b].hold in w.db.holds { StatusIsFinal(w.db, op, w.shop.bookings[b].hold); }
    }
    forall i | 0 <= i < |w.processes| ensures ProcessOk(db2, w.shop, w.freed, w.processes[i]) {
      var p := w.processes[i];
      assert ProcessOk(w.db, w.shop, w.freed, p);
      if p.phase == Finishing && p.job.booking !in w.freed { StatusIsFinal(w.db, op, w.shop.bookings[p.job.booking].hold); }
    }
  }

  /** The tables stay, one process goes on. */
  lemma GotoKeeps(w: World, i: nat, phase: Phase)
    requires Inv(w) && i < |w.processes|
    requires ProcessOk(w.db, w.shop, w.freed, w.processes[i].(phase := phase))
    requires phase in {Confirming, Finishing} ==> HasPaid(w.processes[i])
    ensures Inv(Goto(w, i, phase))
  {
    hide BookingOk, ProcessOk;
  }

  lemma {:induction false} RequestedIsRow(refunds: seq<RefundRow>, b: BookingId)
    ensures Requested(refunds, b).Settling? || Requested(refunds, b) == Done
    ensures Requested(refunds, b).Settling? ==>
      Requested(refunds, b).row < |refunds| && refunds[Requested(refunds, b).row] == RefundRow(b, refunds[Requested(refunds, b).row].amount, true)
  {
    if refunds != [] { RequestedIsRow(refunds[..|refunds| - 1], b); }
  }

  lemma BeginKeeps(w: World, i: nat)
    requires Inv(w) && i < |w.processes| && w.processes[i].phase == Begin
    ensures Inv(Advance(w, i))
  {
    hide BookingOk, PaidApart;
    var job := w.processes[i].job;
    RequestedIsRow(w.shop.refunds, job.booking);
    GotoKeeps(w, i, Admit(w.shop, job));
  }

  lemma PayKeeps(w: World, i: nat)
    requires Inv(w) && i < |w.processes| && w.processes[i].phase == Paying && w.processes[i].job.booking in w.shop.bookings
    ensures Inv(Advance(w, i))
  {
    var p, w2 := w.processes[i], Advance(w, i);
    if Sells(p.job) && Inserts(w.shop, KeyOf(p.job), Payment(p.job.booking, AmountOf(p.job, w.shop.bookings[p.job.booking]))) {
      forall b ensures BookingOk(w2.db, w2.shop, w2.freed, b) {
        assert BookingOk(w.db, w.shop, w.freed, b);
        if Paid(w.shop, b) {
          var key :| key in w.shop.payments && w.shop.payments[key].booking == b;
          assert key in w2.shop.payments && w2.shop.payments[key].booking == b;
        }
      }
      forall j | 0 <= j < |w2.processes| ensures ProcessOk(w2.db, w2.shop, w2.freed, w2.processes[j]) {
        assert ProcessOk(w.db, w.shop, w.freed, w.processes[j]);
      }
      NewPaymentApart(w, i);
    } else {
      GotoKeeps(w, i, Done);
    }
  }

  lemma NewPaymentApart(w: World, i: nat)
    requires PaidApart(w.processes) && i < |w.processes| && Sells(w.processes[i].job) && KeyOf(w.processes[i].job) !in w.shop.payments
    requires forall j :: 0 <= j < |w.processes| ==> ProcessOk(w.db, w.shop, w.freed, w.processes[j])
    ensures PaidApart(Goto(w, i, Confirming).processes)
  {
  }

  lemma ConfirmKeeps(w: World, i: nat)
    requires Inv(w) && i < |w.processes| && w.processes[i].phase == Confirming && w.processes[i].job.booking in w.shop.bookings
    ensures Inv(Advance(w, i))
  {
    var h := w.shop.bookings[w.processes[i].job.booking].hold;
    var r := Step(w.db, OpConfirm(h));
    InventoryKeeps(w, OpConfirm(h));
    if r.out == Ok { ConfirmSucceeds(w.db, h); }
    hide Step, BookingOk, PaidApart;
    var w1 := w.(db := r.db);
    assert ProcessOk(w1.db, w1.shop, w1.freed, w1.processes[i]);
    GotoKeeps(w1, i, if r.out == Ok then Finishing else Done);
  }

  // ---- the transactions of the shop ---------------------------------------------------------------

  lemma OneMoreSale(journals: seq<Entry>, e: Entry, b: BookingId)
    ensures SalesOf(journals + [e], b) == SalesOf(journals, b) + if e.booking == b && e.reason == SALE then 1 else 0
  {
    assert (journals + [e])[..|journals|] == journals;
  }

  lemma OneMoreChange(history: seq<(BookingId, BookingStatus)>, change: (BookingId, BookingStatus), b: BookingId)
    ensures TimesTicketed(history + [change], b) == TimesTicketed(history, b) + if change == (b, TICKETED) then 1 else 0
  {
    assert (history + [change])[..|history|] == history;
  }

  /** A transaction of booking `b` leaves the records and the invariant of every other booking alone. */
  ghost predicate OnlyTouches(shop: Shop, shop2: Shop, b: BookingId) {
    && b in shop.bookings && shop2.bookings.Keys == shop.bookings.Keys && shop2.payments == shop.payments
    && (forall c :: c in shop.bookings && c != b ==> shop2.bookings[c] == shop.bookings[c])
    && shop2.bookings[b] == shop.bookings[b].(status := shop2.bookings[b].status)
    && (forall c :: c != b ==> SalesOf(shop2.journals, c) == SalesOf(shop.journals, c) && TimesTicketed(shop2.history, c) == TimesTicketed(shop.history, c))
    && (forall t: TicketKey :: t.booking != b ==> (t in shop2.tickets <==> t in shop.tickets))
  }

  lemma ShopKeeps(w: World, i: nat, shop2: Shop)
    requires Inv(w) && i < |w.processes| && w.processes[i].job.booking in w.shop.bookings
    requires exists b :: OnlyTouches(w.shop, shop2, b) && BookingOk(w.db, shop2, w.freed, b) && Ticketed(shop2, b)
    requires Audited(shop2, w.freed) && |shop2.refunds| >= |w.shop.refunds|
    requires forall n :: 0 <= n < |w.shop.refunds| ==> shop2.refunds[n].booking == w.shop.refunds[n].booking
    ensures Inv(Goto(w, i, Done).(shop := shop2))
  {
    var b :| OnlyTouches(w.shop, shop2, b) && BookingOk(w.db, shop2, w.freed, b) && Ticketed(shop2, b);
    forall c ensures BookingOk(w.db, shop2, w.freed, c) {
      assert BookingOk(w.db, w.shop, w.freed, c);
      if c != b { OtherBookingOk(w.db, w.shop, shop2, w.freed, b, c); }
    }
    var w2 := Goto(w, i, Done).(shop := shop2);
    forall j | 0 <= j < |w2.processes| ensures ProcessOk(w2.db, w2.shop, w2.freed, w2.processes[j]) {
      assert ProcessOk(w.db, w.shop, w.freed, w.processes[j]);
    }
  }

  lemma OtherBookingOk(db: Db, shop: Shop, shop2: Shop, freed: set<BookingId>, b: BookingId, c: BookingId)
    requires OnlyTouches(shop, shop2, b) && b != c && BookingOk(db, shop, freed, c)
    ensures BookingOk(db, shop2, freed, c)
  {
  }

  lemma MarkTouches(shop: Shop, shop2: Shop, b: BookingId, status: BookingStatus, e: Option<Entry>)
    requires b in shop.bookings && (e.Some? ==> e.value.booking == b)
    requires shop2.bookings == shop.bookings[b := shop.bookings[b].(status := status)] && shop2.payments == shop.payments
    requires shop2.history == shop.history + [(b, status)]
    requires shop2.journals == if e.Some? then shop.journals + [e.value] else shop.journals
    requires forall t: TicketKey :: t.booking != b ==> (t in shop2.tickets <==> t in shop.tickets)
    ensures OnlyTouches(shop, shop2, b)
    ensures TimesTicketed(shop2.history, b) == TimesTicketed(shop.history, b) + if status == TICKETED then 1 else 0
    ensures SalesOf(shop2.journals, b) == SalesOf(shop.journals, b) + if e.Some? && e.value.reason == SALE then 1 else 0
  {
    forall c ensures c != b ==> SalesOf(shop2.journals, c) == SalesOf(shop.journals, c) && TimesTicketed(shop2.history, c) == TimesTicketed(shop.history, c) {
      OneMoreChange(shop.history, (b, status), c);
      if e.Some? { OneMoreSale(shop.journals, e.value, c); }
    }
    OneMoreChange(shop.history, (b, status), b);
    if e.Some? { OneMoreSale(shop.journals, e.value, b); }
  }

  lemma JournalIsAudited(shop: Shop, freed: set<BookingId>, e: Entry, postings: seq<Posting>)
    requires Audited(shop, freed) && Journal(postings) == Some(e.lines)
    ensures forall f :: f in shop.journals + [e] ==> Balanced(f.lines) && forall p :: p in f.lines ==> p.amount > 0
  {
  }

  lemma FinishKeeps(w: World, i: nat)
    requires Inv(w) && i < |w.processes| && w.processes[i].phase == Finishing && w.processes[i].job.booking in w.shop.bookings
    ensures Inv(Advance(w, i))
  {
    var p := w.processes[i];
    var b := p.job.booking;
    var postings := PostingsOf(p.job, w.shop.bookings[b]);
    var shop2 := Finalise(w.shop, b, postings);
    assert BookingOk(w.db, w.shop, w.freed, b);
    if shop2 == w.shop {
      GotoKeeps(w, i, Done);
    } else {
      var e := Entry(b, SALE, Journal(postings).value);
      MarkTouches(w.shop, shop2, b, TICKETED, Some(e));
      JournalIsAudited(w.shop, w.freed, e, postings);
      assert w.shop.payments[KeyOf(p.job)].booking == b;
      TicketsIssued(w.shop, shop2, b);
      assert BookingOk(w.db, shop2, w.freed, b);
      ShopKeeps(w, i, shop2);
    }
  }

  lemma TicketsIssued(shop: Shop, shop2: Shop, b: BookingId)
    requires b in shop.bookings && shop2.tickets == Issue(shop.tickets, b, shop.bookings[b].seats) && Recorded(shop, b) && !Ticketed(shop, b)
    ensures forall no :: TicketKey(b, no) in shop2.tickets <==> no in shop.bookings[b].seats
  {
  }

  lemma ReleaseKeeps(w: World, i: nat)
    requires Inv(w) && i < |w.processes| && w.processes[i].phase == Releasing && w.processes[i].job.booking in w.shop.bookings
    ensures Inv(Advance(w, i))
  {
    var b := w.processes[i].job.booking;
    var h := w.shop.bookings[b].hold;
    var r := Step(w.db, OpUnsell(h));
    assert BookingOk(w.db, w.shop, w.freed, b);
    if Confirmed(w.db, h) { UnsellGivesBack(w.db, h); } else { StatusIsFinal(w.db, OpUnsell(h), h); }
    hide Step;
    if r.out == Ok {
      var w2 := Advance(w, i);
      forall c ensures BookingOk(w2.db, w2.shop, w2.freed, c) {
        assert BookingOk(w.db, w.shop, w.freed, c);
        if c in w.shop.bookings && c != b && w.shop.bookings[c].hold in w.db.holds { StatusIsFinal(w.db, OpUnsell(h), w.shop.bookings[c].hold); }
      }
      forall j | 0 <= j < |w2.processes| ensures ProcessOk(w2.db, w2.shop, w2.freed, w2.processes[j]) {
        var p := w.processes[j];
        assert ProcessOk(w.db, w.shop, w.freed, p);
        if p.phase == Finishing && p.job.booking !in w2.freed { StatusIsFinal(w.db, OpUnsell(h), w.shop.bookings[p.job.booking].hold); }
      }
    } else {
      GotoKeeps(w, i, Done);
    }
  }

  lemma RefundKeeps(w: World, i: nat)
    requires Inv(w) && i < |w.processes| && w.processes[i].phase == Refunding && w.processes[i].job.booking in w.shop.bookings
    ensures Inv(Advance(w, i))
  {
    var p := w.processes[i];
    var b := p.job.booking;
    assert BookingOk(w.db, w.shop, w.freed, b) && ProcessOk(w.db, w.shop, w.freed, p);
    if Cancel(w.shop, b, p.job.pct) == w.shop {
      GotoKeeps(w, i, Done);
    } else {
      var shop2 := Cancel(w.shop, b, p.job.pct);
      var postings := CancelPostings(w.shop.bookings[b].total, p.job.pct);
      var e := Entry(b, REFUND, Journal(postings).value);
      MarkTouches(w.shop, shop2, b, shop2.bookings[b].status, if shop2.journals == w.shop.journals then None else Some(e));
      JournalIsAudited(w.shop, w.freed, e, postings);
      assert BookingOk(w.db, shop2, w.freed, b);
      ShopKeeps(w, i, shop2);
    }
  }

  lemma SettleKeeps(w: World, i: nat)
    requires Inv(w) && i < |w.processes| && w.processes[i].phase.Settling? && w.processes[i].job.booking in w.shop.bookings
    ensures Inv(Advance(w, i))
  {
    hide SettlePostings, Journal, PaidApart, HoldsApart;
    var n := w.processes[i].phase.row;
    var shop2 := SettleRow(w.shop, n);
    if shop2 == w.shop {
      GotoKeeps(w, i, Done);
    } else {
      var b := w.shop.refunds[n].booking;
      assert w.shop.refunds[n] in w.shop.refunds && BookingOk(w.db, w.shop, w.freed, b);
      var postings := SettlePostings(w.shop.refunds[n].amount);
      var e := Entry(b, SETTLED(n), Journal(postings).value);
      MarkTouches(w.shop, shop2, b, REFUNDED, Some(e));
      JournalIsAudited(w.shop, w.freed, e, postings);
      assert BookingOk(w.db, shop2, w.freed, b);
      ShopKeeps(w, i, shop2);
    }
  }

  lemma CreateKeeps(w: World, b: BookingId, k: Booking)
    requires Inv(w) && b !in w.shop.bookings && k.status == PAYMENT_PENDING && NewHold(w.shop, k.hold)
    ensures Inv(w.(shop := w.shop.(bookings := w.shop.bookings[b := k])))
  {
    var shop2 := w.shop.(bookings := w.shop.bookings[b := k]);
    forall c ensures BookingOk(w.db, shop2, w.freed, c) {
      assert BookingOk(w.db, w.shop, w.freed, c) && (Paid(w.shop, c) ==> Paid(shop2, c));
    }
    forall j | 0 <= j < |w.processes| ensures ProcessOk(w.db, shop2, w.freed, w.processes[j]) {
      assert ProcessOk(w.db, w.shop, w.freed, w.processes[j]);
    }
  }

  lemma DealKeeps(w: World, t: Turn)
    requires Inv(w)
    ensures Inv(Deal(w, t))
  {
    match t
    case Run(i) =>
      if i < |w.processes| {
        assert ProcessOk(w.db, w.shop, w.freed, w.processes[i]);
        match w.processes[i].phase
        case Begin => BeginKeeps(w, i);
        case Paying => PayKeeps(w, i);
        case Confirming => ConfirmKeeps(w, i);
        case Finishing => FinishKeeps(w, i);
        case Releasing => ReleaseKeeps(w, i);
        case Refunding => RefundKeeps(w, i);
        case Settling(_) => SettleKeeps(w, i);
        case Done => GotoKeeps(w, i, Done);
      }
    case Pick(i, n) => if i < |w.processes| && Picks(w, w.processes[i], n) { GotoKeeps(w, i, Settling(n)); }
    case Crash(i) => if i < |w.processes| { GotoKeeps(w, i, Done); }
    case Elsewhere(op) => if !op.OpUnsell? && Guarded(w.db, op) { InventoryKeeps(w, op); }
    case Create(b, k) =>
      if b !in w.shop.bookings && k.status == PAYMENT_PENDING && NewHold(w.shop, k.hold) && Distinct(k.seats) { CreateKeeps(w, b, k); }
  }

  // ---- the theorems -----------------------------------------------------------------------------

  /** The runs include all traffic: whatever the inventory can do in a guarded run, it can do between two steps here. */
  lemma {:induction false} TrafficIsIncluded(w: World, ops: seq<Op>) returns (turns: seq<Turn>)
    requires GuardedFrom(w.db, ops) && forall op :: op in ops ==> !op.OpUnsell?
    ensures Play(w, turns) == w.(db := RunFrom(w.db, ops))
    decreases |ops|
  {
    hide Step, Guarded;
    turns := [];
    if ops != [] {
      var w2 := Deal(w, Elsewhere(ops[0]));
      assert w2 == w.(db := Step(w.db, ops[0]).db);
      var rest := TrafficIsIncluded(w2, ops[1..]);
      turns := [Elsewhere(ops[0])] + rest;
      assert turns[1..] == rest;
    }
  }

  lemma OpeningOk(db: Db, jobs: seq<Job>)
    ensures Inv(Opening(db, jobs))
  {
  }

  lemma {:induction false} PlayKeeps(w: World, turns: seq<Turn>)
    requires Inv(w)
    ensures Inv(Play(w, turns))
    decreases |turns|
  {
    hide Inv, Deal;
    if turns != [] {
      DealKeeps(w, turns[0]);
      PlayKeeps(Deal(w, turns[0]), turns[1..]);
    }
  }

  /** In every reachable state: each booking was ticketed at most once, with one sale journal and one
      ticket per seat, only after a payment; every journal balances; processes that got past a payment
      got past different ones; and a TICKETED booking's hold is CONFIRMED exactly until a cancellation
      has given its seats back. */
  lemma SagaIsSafe(db: Db, jobs: seq<Job>, turns: seq<Turn>)
    ensures var w := Play(Opening(db, jobs), turns);
      && (forall b :: Recorded(w.shop, b) && (Ticketed(w.shop, b) ==> Paid(w.shop, b)))
      && (forall b :: b in w.shop.bookings && w.shop.bookings[b].status == TICKETED ==>
            (Confirmed(w.db, w.shop.bookings[b].hold) <==> b !in w.freed))
      && Audited(w.shop, w.freed) && PaidApart(w.processes)
  {
    OpeningOk(db, jobs);
    PlayKeeps(Opening(db, jobs), turns);
    var w := Play(Opening(db, jobs), turns);
    hide Play, Recorded, Paid;
    forall b ensures Recorded(w.shop, b) && (Ticketed(w.shop, b) ==> Paid(w.shop, b))
      ensures b in w.shop.bookings && w.shop.bookings[b].status == TICKETED ==> (Confirmed(w.db, w.shop.bookings[b].hold) <==> b !in w.freed)
    {
      assert BookingOk(w.db, w.shop, w.freed, b);
    }
  }

  /** The inventory operation of a turn, if it has one. */
  lemma DealRefines(w: World, own: Owners, t: Turn) returns (own2: Owners)
    requires Refines(w.db, own)
    ensures Refines(Deal(w, t).db, own2)
  {
    own2 := own;
    if Deal(w, t).db != w.db {
      var op := OpOf(w, t);
      StepRefines(w.db, own, op);
      if Step(w.db, op).out == Ok { own2 := After(own, w.db, op); }
    }
  }

  lemma OpOf(w: World, t: Turn) returns (op: Op)
    requires Deal(w, t).db != w.db
    ensures Guarded(w.db, op) && Deal(w, t).db == Step(w.db, op).db
  {
    hide Step;
    if t.Elsewhere? {
      op := t.op;
    } else {
      var p := w.processes[t.i];
      op := if p.phase == Confirming then OpConfirm(w.shop.bookings[p.job.booking].hold) else OpUnsell(w.shop.bookings[p.job.booking].hold);
    }
  }

  lemma {:induction false} PlayRefines(w: World, own: Owners, turns: seq<Turn>) returns (own2: Owners)
    requires Refines(w.db, own)
    ensures Refines(Play(w, turns).db, own2)
    decreases |turns|
  {
    hide Refines, Deal;
    own2 := own;
    if turns != [] {
      own2 := DealRefines(w, own, turns[0]);
      own2 := PlayRefines(Deal(w, turns[0]), own2, turns[1..]);
    }
  }

  /** A TICKETED booking that nobody is cancelling owns every segment of every seat of its hold. */
  lemma TicketedSeatsAreSold(db: Db, own: Owners, jobs: seq<Job>, turns: seq<Turn>, b: BookingId, no: SeatNo, k: nat)
    requires Refines(db, own)
    requires var w := Play(Opening(db, jobs), turns);
      && b in w.shop.bookings && w.shop.bookings[b].status == TICKETED && b !in w.freed
      && ItemKey(w.shop.bookings[b].hold, no) in w.db.items && Bit(w.db.items[ItemKey(w.shop.bookings[b].hold, no)].mask, k)
    ensures exists own2: Owners ::
      var w := Play(Opening(db, jobs), turns); var h := w.shop.bookings[b].hold;
      Refines(w.db, own2) && own2(SeatOf(w.db, ItemKey(h, no)), k) == Sold(h)
  {
    SagaIsSafe(db, jobs, turns);
    var own2 := PlayRefines(Opening(db, jobs), own, turns);
    var w := Play(Opening(db, jobs), turns);
    ItemOwns(w.db, own2, ItemKey(w.shop.bookings[b].hold, no), k);
  }

  // ---- duplicates ---------------------------------------------------------------------------

  lemma DealKeepsPayment(w: World, t: Turn, key: PayKey)
    requires key in w.shop.payments
    ensures key in Deal(w, t).shop.payments && Deal(w, t).shop.payments[key] == w.shop.payments[key]
  {
    hide Step;
  }

  /** The first payment of a (provider, transaction id) is the only one, for good. */
  lemma {:induction false} FirstPaymentWins(w: World, turns: seq<Turn>, key: PayKey)
    requires key in w.shop.payments
    ensures key in Play(w, turns).shop.payments && Play(w, turns).shop.payments[key] == w.shop.payments[key]
    decreases |turns|
  {
    if turns != [] {
      DealKeepsPayment(w, turns[0], key);
      FirstPaymentWins(Deal(w, turns[0]), turns[1..], key);
    }
  }

  /** Has not written anything, and never will: its payment is already there. */
  predicate Inert(w: World, p: Process) {
    Sells(p.job) && KeyOf(p.job) in w.shop.payments && p.phase in {Begin, Paying, Done}
  }

  lemma InertDeal(w: World, t: Turn, i: nat)
    requires i < |w.processes| && Inert(w, w.processes[i])
    ensures i < |Deal(w, t).processes| && Deal(w, t).processes[i].job == w.processes[i].job && Inert(Deal(w, t), Deal(w, t).processes[i])
    ensures t == Run(i) || t == Crash(i) ==> Deal(w, t).shop == w.shop && Deal(w, t).db == w.db && Deal(w, t).freed == w.freed
  {
    hide Step;
    DealKeepsPayment(w, t, KeyOf(w.processes[i].job));
  }

  /** A duplicate delivery changes nothing, whenever its steps run. */
  lemma {:induction false} DuplicateIsInert(w: World, turns: seq<Turn>, i: nat)
    requires i < |w.processes| && Inert(w, w.processes[i])
    ensures i < |Play(w, turns).processes| && Inert(Play(w, turns), Play(w, turns).processes[i])
    decreases |turns|
  {
    if turns != [] {
      InertDeal(w, turns[0], i);
      DuplicateIsInert(Deal(w, turns[0]), turns[1..], i);
    }
  }

  /** Everybody who could still ticket the booking is a duplicate. */
  predicate OnlyDuplicates(w: World, b: BookingId) {
    && b in w.shop.bookings && w.shop.bookings[b].status == PAYMENT_PENDING
    && forall i :: 0 <= i < |w.processes| && w.processes[i].job.booking == b && Sells(w.processes[i].job) ==>
         w.processes[i].phase == Done || Inert(w, w.processes[i])
  }

  lemma PendingUntilFinished(w: World, t: Turn, b: BookingId)
    requires Inv(w) && OnlyDuplicates(w, b)
    ensures b in Deal(w, t).shop.bookings && Deal(w, t).shop.bookings[b].status == PAYMENT_PENDING
  {
    hide Step;
    assert BookingOk(w.db, w.shop, w.freed, b);
    if t.Run? && t.i < |w.processes| {
      assert ProcessOk(w.db, w.shop, w.freed, w.processes[t.i]);
      if w.processes[t.i].phase.Settling? {
        assert w.shop.refunds[w.processes[t.i].phase.row] in w.shop.refunds;
      }
    }
  }

  lemma DuplicatesStay(w: World, t: Turn, b: BookingId)
    requires Inv(w) && OnlyDuplicates(w, b)
    ensures OnlyDuplicates(Deal(w, t), b)
  {
    PendingUntilFinished(w, t, b);
    var w2 := Deal(w, t);
    forall i | 0 <= i < |w2.processes| && w2.processes[i].job.booking == b && Sells(w2.processes[i].job)
      ensures w2.processes[i].phase == Done || Inert(w2, w2.processes[i])
    {
      JobsStay(w, t, i);
      if Inert(w, w.processes[i]) { InertDeal(w, t, i); }
    }
  }

  lemma JobsStay(w: World, t: Turn, i: nat)
    ensures |Deal(w, t).processes| == |w.processes|
    ensures i < |w.processes| ==> Deal(w, t).processes[i].job == w.processes[i].job
    ensures i < |w.processes| && w.processes[i].phase == Done ==> Deal(w, t).processes[i].phase == Done
  {
    hide Step;
  }

  /** A process that died after its payment row leaves the booking pending for ever: no redelivery of
      that payment, however often, tickets it. */
  lemma {:induction false} RedeliveryNeverTickets(w: World, turns: seq<Turn>, b: BookingId)
    requires Inv(w) && OnlyDuplicates(w, b)
    ensures OnlyDuplicates(Play(w, turns), b)
    decreases |turns|
  {
    if turns != [] {
      DealKeeps(w, turns[0]);
      DuplicatesStay(w, turns[0], b);
      RedeliveryNeverTickets(Deal(w, turns[0]), turns[1..], b);
    }
  }
}
