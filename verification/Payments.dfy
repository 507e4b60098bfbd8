/** What the commerce transactions write, in amounts, columns and accounts, and where every payment, sale journal and
    refund row of a run comes from. Each condition is spelled out in the fields of the request and the booking. */
module Payments {
  import opened Wrappers
  import opened Inventory
  import opened Ownership
  import opened Laws
  import opened Ledger
  import opened SagaTables
  import opened SagaRuns

  // ---- the checks of the handlers ---------------------------------------------------------------

  /** COALESCE(NULLIF(amount_due_poisha, 0), total_poisha). */
  predicate IsDue(k: Booking, amount: int) { amount == if k.due == 0 then k.total else k.due }

  /** A webhook must be signed, in taka, and over the amount that is due; a settlement at a counter or an agency
      must find the booking pending. */
  predicate Passes(shop: Shop, job: Job)
    requires Sells(job)
  {
    && job.booking in shop.bookings
    && var k := shop.bookings[job.booking];
    if job.Webhook? then job.signed && job.bdt && IsDue(k, job.amount) else k.status == PAYMENT_PENDING
  }

  lemma AdmitIff(shop: Shop, job: Job)
    ensures Sells(job) ==> Admit(shop, job) == if Passes(shop, job) then Paying else Done
    ensures job.Cancellation? ==>
      Admit(shop, job) == if job.booking in shop.bookings && shop.bookings[job.booking].status == TICKETED && !job.departed then Releasing else Done
    ensures job.RefundCallback? ==>
      (Admit(shop, job) == Done <==> job.booking !in shop.bookings || forall r :: r in shop.refunds ==> !(r.booking == job.booking && r.requested))
  {
    if job.RefundCallback? { RequestedIff(shop.refunds, job.booking); }
  }

  lemma {:induction false} RequestedIff(refunds: seq<RefundRow>, b: BookingId)
    ensures Requested(refunds, b) == Done <==> forall r :: r in refunds ==> !(r.booking == b && r.requested)
  {
    if refunds != [] {
      var n := |refunds| - 1;
      assert refunds == refunds[..n] + [refunds[n]];
      RequestedIff(refunds[..n], b);
    }
  }

  /** The unique key of the payment row, and its amount. */
  predicate IsPaymentOf(job: Job, k: Booking, key: PayKey, p: Payment) {
    && p.booking == job.booking
    && match job
       case Webhook(_, own, amount, _, _) => key == own && p.amount == amount
       case CounterSale(b, instrument) => key == PayKey(instrument, b) && p.amount == k.total
       case AgentSale(b) => key == PayKey(AGENT_WALLET, b) && p.amount == k.total
       case _ => false
  }

  lemma PaymentIs(job: Job, k: Booking)
    requires Sells(job)
    ensures forall key, p :: IsPaymentOf(job, k, key, p) <==> key == KeyOf(job) && p == Payment(job.booking, AmountOf(job, k))
  {
  }

  // ---- the splits -------------------------------------------------------------------------------

  /** Who gets what of a sale over `g`: five thousand and a tenth of the rest is the platform's. */
  function PlatformPart(g: int): int { 5000 + (g - 5000) / 10 }
  function OperatorPart(g: int): int { g - PlatformPart(g) }
  function GatewayPart(g: int): int { g * 15 / 1000 }

  /** Debits less credits of an account by the journal of a sale or a reschedule. */
  function SaleEffect(job: Job, k: Booking, acc: Account): int {
    match job
    case Webhook(_, _, amount, _, _) => if k.instead.Some? then MoveEffect(k.instead.value, k.total, acc) else PaidEffect(GatewayClearing, amount, true, acc)
    case CounterSale(_, CASH) => PaidEffect(Cash, k.total, false, acc)
    case CounterSale(_, _) => PaidEffect(GatewayClearing, k.total, true, acc)
    case _ => PaidEffect(AgentPayable, k.total, false, acc)
  }

  /** The money is on `paid`, less one and a half percent for a gateway; the operator and the platform are owed theirs. */
  function PaidEffect(paid: Account, g: int, gateway: bool, acc: Account): int {
    if acc == OperatorPayable then -OperatorPart(g)
    else if acc == PlatformRevenue then -PlatformPart(g)
    else if acc == paid then (if gateway then g - GatewayPart(g) else g)
    else if acc == GatewayFee && gateway then GatewayPart(g) else 0
  }

  function MoveEffect(before: int, now: int, acc: Account): int {
    if acc == OperatorPayable then OperatorPart(before) - OperatorPart(now)
    else if acc == PlatformRevenue then PlatformPart(before) - PlatformPart(now)
    else if acc == GatewayClearing && now > before then now - before
    else if acc == RefundPayable && now < before then now - before else 0
  }

  /** The amounts that the journal is about, which must cover the service fee. */
  predicate CoversFee(job: Job, k: Booking) {
    if job.Webhook? then (if k.instead.Some? then k.instead.value >= 5000 && k.total >= 5000 else job.amount >= 5000) else k.total >= 5000
  }

  lemma Parts(g: int)
    requires g >= 5000
    ensures OperatorShare(g) == OperatorPart(g) && PlatformShare(g) == PlatformPart(g) && GatewayCut(g) == GatewayPart(g)
  {
  }

  lemma PaidLists(g: int)
    requires g >= 5000
    ensures forall acc :: Net(Lines(GatewayPostings(g)), acc) == PaidEffect(GatewayClearing, g, true, acc)
    ensures forall acc :: Net(Lines(CounterPostings(g, false)), acc) == PaidEffect(GatewayClearing, g, true, acc)
    ensures forall acc :: Net(Lines(CounterPostings(g, true)), acc) == PaidEffect(Cash, g, false, acc)
    ensures forall acc :: Net(Lines(AgentPostings(g)), acc) == PaidEffect(AgentPayable, g, false, acc)
  {
    hide Net, Lines, Total, GatewayPostings, CounterPostings, AgentPostings, OperatorShare, PlatformShare, GatewayCut,
         OperatorPart, PlatformPart, GatewayPart;
    Parts(g);
    SaleLines(g);
    LinesKeepTotals(GatewayPostings(g));
    LinesKeepTotals(CounterPostings(g, false));
    LinesKeepTotals(CounterPostings(g, true));
    LinesKeepTotals(AgentPostings(g));
  }

  lemma MoveList(before: int, now: int)
    requires before >= 5000 && now >= 5000
    ensures forall acc :: Net(Lines(ReschedulePostings(before, now)), acc) == MoveEffect(before, now, acc)
  {
    hide Net, Lines, Total, ReschedulePostings, OperatorShare, PlatformShare, OperatorPart, PlatformPart;
    Parts(before);
    Parts(now);
    RescheduleLines(before, now);
    LinesKeepTotals(ReschedulePostings(before, now));
  }

  lemma AcceptedIff(job: Job, k: Booking)
    requires Sells(job)
    ensures Journal(PostingsOf(job, k)).Some? <==> CoversFee(job, k)
  {
    hide Journal, GatewayPostings, CounterPostings, AgentPostings, ReschedulePostings;
    var g := if job.Webhook? then job.amount else k.total;
    SaleIsBookedIff(g, k.total, job.CounterSale? && job.instrument == CASH);
    if k.instead.Some? { SaleIsBookedIff(k.instead.value, k.total, true); }
  }

  /** The ledger accepts the journal exactly if the fee is covered, and then it has exactly this effect. */
  lemma SaleJournal(job: Job, k: Booking)
    requires Sells(job)
    ensures Journal(PostingsOf(job, k)).Some? <==> CoversFee(job, k)
    ensures Journal(PostingsOf(job, k)).Some? ==> forall acc :: Net(Journal(PostingsOf(job, k)).value, acc) == SaleEffect(job, k, acc)
  {
    AcceptedIff(job, k);
    if CoversFee(job, k) {
      assert Journal(PostingsOf(job, k)) == Some(Lines(PostingsOf(job, k)));
      hide Journal, Net, Lines, PaidEffect, MoveEffect, GatewayPostings, CounterPostings, AgentPostings, ReschedulePostings;
      if job.Webhook? && k.instead.Some? { MoveList(k.instead.value, k.total); }
      else { PaidLists(if job.Webhook? then job.amount else k.total); }
    }
  }

  // ---- the rows of each transaction -------------------------------------------------------------

  /** Finalise, for an accepted journal: TICKETED, a VALID ticket for each seat that has none, and the journal. */
  lemma FinaliseRows(shop: Shop, b: BookingId, postings: seq<Posting>)
    requires b in shop.bookings && shop.bookings[b].status == PAYMENT_PENDING && Journal(postings).Some?
    ensures var shop2, k := Finalise(shop, b, postings), shop.bookings[b];
      && shop2.bookings == shop.bookings[b := k.(status := TICKETED)] && shop2.payments == shop.payments && shop2.refunds == shop.refunds
      && shop2.journals == shop.journals + [Entry(b, SALE, Journal(postings).value)]
      && (forall t :: t in shop2.tickets <==> t in shop.tickets || (t.booking == b && t.no in k.seats))
      && (forall t :: t in shop2.tickets ==> shop2.tickets[t] == if t in shop.tickets then shop.tickets[t] else VALID)
  {
    IssueAt(shop.tickets, b, shop.bookings[b].seats);
    hide Issue, Journal;
  }

  lemma FloorOf(total: int, pct: int)
    requires total >= 0 && 0 <= pct <= 100
    ensures Refund(total, pct) == total * pct / 100 && 0 <= Refund(total, pct) <= total
    ensures 0 <= total * pct - 100 * Refund(total, pct) < 100
  {
    Scale(0, total, pct);
    Scale(pct, 100, total);
  }

  /** The journal of a refund of `r` for a booking over `total`: owed to the passenger, taken from both parties in
      proportion, the operator's part rounded down. */
  ghost predicate IsRefundJournal(lines: seq<Posting>, total: int, r: int) {
    var op := Net(lines, OperatorPayable);
    && 0 <= r * OperatorPart(total) - op * total < total
    && forall acc :: Net(lines, acc) ==
         if acc == OperatorPayable then op else if acc == PlatformRevenue then r - op else if acc == RefundPayable then -r else 0
  }

  lemma RefundJournal(total: int, pct: int)
    requires total >= 5000 && 0 <= pct <= 100
    ensures Journal(CancelPostings(total, pct)).Some? && (Refund(total, pct) > 0 ==> IsRefundJournal(Journal(CancelPostings(total, pct)).value, total, Refund(total, pct)))
  {
    hide Net, Lines, Total, CancelPostings, OperatorRefund, PlatformRefund, OperatorShare, OperatorPart;
    CancelLines(total, pct);
    RefundSplit(total, pct);
    Parts(total);
    LinesKeepTotals(CancelPostings(total, pct));
  }

  /** What a cancellation at `pct` percent writes: one refund row over exactly that part of the total, rounded down to
      a poisha, the status that goes with it, the journal, and no valid ticket. */
  lemma CancellationRows(shop: Shop, b: BookingId, pct: int)
    requires b in shop.bookings && shop.bookings[b].total >= 5000 && 0 <= pct <= 100
    ensures var shop2, k, n := Cancel(shop, b, pct), shop.bookings[b], |shop.refunds|;
      && |shop2.refunds| == n + 1 && shop2.refunds[..n] == shop.refunds
      && var r := shop2.refunds[n].amount;
      && 0 <= k.total * pct - 100 * r < 100 && shop2.refunds[n] == RefundRow(b, r, r > 0)
      && shop2.bookings == shop.bookings[b := k.(status := if r > 0 then REFUND_PENDING else CANCELLED)]
      && shop2.payments == shop.payments && shop2.tickets.Keys == shop.tickets.Keys
      && (forall t :: t in shop.tickets ==> shop2.tickets[t] == if t.booking == b then VOID else shop.tickets[t])
      && (r == 0 ==> shop2.journals == shop.journals)
      && (r > 0 ==> |shop2.journals| == |shop.journals| + 1 && shop2.journals[..|shop.journals|] == shop.journals
                    && var e := shop2.journals[|shop.journals|]; e == Entry(b, REFUND, e.lines) && IsRefundJournal(e.lines, k.total, r))
  {
    FloorOf(shop.bookings[b].total, pct);
    RefundJournal(shop.bookings[b].total, pct);
    hide Refund, IsRefundJournal, CancelPostings, Journal;
  }

  /** What the settlement of a requested refund writes: 2201 is discharged and the money leaves the gateway. */
  lemma SettlementRows(shop: Shop, n: nat)
    requires n < |shop.refunds| && shop.refunds[n].booking in shop.bookings && shop.refunds[n].amount > 0
    ensures var shop2, row := SettleRow(shop, n), shop.refunds[n];
      && shop2.refunds == shop.refunds[n := RefundRow(row.booking, row.amount, false)]
      && shop2.bookings == shop.bookings[row.booking := shop.bookings[row.booking].(status := REFUNDED)]
      && shop2.payments == shop.payments && shop2.tickets == shop.tickets
      && |shop2.journals| == |shop.journals| + 1 && shop2.journals[..|shop.journals|] == shop.journals
      && var e := shop2.journals[|shop.journals|];
      && e == Entry(row.booking, SETTLED(n), e.lines)
      && forall acc :: Net(e.lines, acc) == if acc == RefundPayable then row.amount else if acc == GatewayClearing then -row.amount else 0
  {
    SettledLines(shop.refunds[n].amount);
    hide SettlePostings, Journal, Net;
  }

  lemma SettledLines(amount: int)
    requires amount > 0
    ensures Journal(SettlePostings(amount)).Some?
    ensures forall acc :: Net(Journal(SettlePostings(amount)).value, acc) ==
              if acc == RefundPayable then amount else if acc == GatewayClearing then -amount else 0
  {
    hide Net, Lines, Total;
    var ps := SettlePostings(amount);
    TwoLines(ps[0], ps[1]);
    JournalIff(ps);
    LinesKeepTotals(ps);
  }

  // ---- over runs --------------------------------------------------------------------------------

  /** Nothing of a booking but its status ever changes. */
  lemma TermsStay(w: World, t: Turn, b: BookingId)
    requires b in w.shop.bookings
    ensures var after := Deal(w, t).shop.bookings; b in after && after[b] == w.shop.bookings[b].(status := after[b].status)
  {
    hide Step, Refundable, PostingsOf, Issue, Journal, Void, SagaTables.Inserts, Admit, Refund, CancelPostings, SettlePostings;
  }

  /** The job of process `i`, which sells the booking, passed its check as far as it can be read off the request. */
  ghost predicate Genuine(w: World, i: nat) {
    && i < |w.processes| && Sells(w.processes[i].job)
    && var job := w.processes[i].job;
    && job.booking in w.shop.bookings
    && (job.Webhook? ==> job.signed && job.bdt && IsDue(w.shop.bookings[job.booking], job.amount))
  }

  ghost predicate PaymentOk(w: World, key: PayKey) {
    key in w.shop.payments ==>
      w.shop.payments[key].amount > 0
      && exists i: nat :: Genuine(w, i) && IsPaymentOf(w.processes[i].job, w.shop.bookings[w.processes[i].job.booking], key, w.shop.payments[key])
  }

  ghost predicate JournalOk(w: World, n: nat) {
    n < |w.shop.journals| && w.shop.journals[n].reason == SALE ==>
      exists i: nat :: Genuine(w, i) && SplitsAs(w.shop.journals[n], w.processes[i].job, w.shop.bookings[w.processes[i].job.booking])
  }

  ghost predicate SplitsAs(e: Entry, job: Job, k: Booking) {
    e.booking == job.booking && CoversFee(job, k) && forall acc :: Net(e.lines, acc) == SaleEffect(job, k, acc)
  }

  ghost predicate RefundOk(w: World, n: nat) {
    n < |w.shop.refunds| ==>
      exists i: nat :: i < |w.processes| && IsRefundOf(w.shop, w.shop.refunds[n], w.processes[i].job)
  }

  ghost predicate IsRefundOf(shop: Shop, row: RefundRow, job: Job) {
    && job.Cancellation? && !job.departed && row.booking == job.booking && job.booking in shop.bookings
    && (0 <= job.pct <= 100 && shop.bookings[job.booking].total >= 0 ==> 0 <= shop.bookings[job.booking].total * job.pct - 100 * row.amount < 100)
  }

  ghost predicate UnderWay(w: World, i: nat) {
    i < |w.processes| && w.processes[i].phase in {Paying, Confirming, Finishing} ==> Genuine(w, i)
  }

  ghost predicate Traced(w: World) {
    && (forall key :: PaymentOk(w, key)) && (forall n: nat :: JournalOk(w, n)) && (forall n: nat :: RefundOk(w, n))
    && forall i: nat :: UnderWay(w, i)
  }

  lemma GenuineStays(w: World, t: Turn, i: nat)
    requires Genuine(w, i)
    ensures Genuine(Deal(w, t), i) && Deal(w, t).processes[i].job == w.processes[i].job
    ensures var b := w.processes[i].job.booking; Deal(w, t).shop.bookings[b] == w.shop.bookings[b].(status := Deal(w, t).shop.bookings[b].status)
  {
    JobsStay(w, t, i);
    TermsStay(w, t, w.processes[i].job.booking);
    hide Deal;
  }

  lemma UnderWayStays(w: World, t: Turn, i: nat)
    requires UnderWay(w, i)
    ensures UnderWay(Deal(w, t), i)
  {
    JobsStay(w, t, i);
    if Genuine(w, i) { GenuineStays(w, t, i); }
    else if i < |w.processes| { StartsGenuine(w, t, i); }
    hide Deal, Genuine;
  }

  lemma StartsGenuine(w: World, t: Turn, i: nat)
    requires i < |w.processes| && w.processes[i].phase !in {Paying, Confirming, Finishing}
    ensures i < |Deal(w, t).processes| && (Deal(w, t).processes[i].phase in {Paying, Confirming, Finishing} ==> Genuine(Deal(w, t), i))
  {
    AdmitIff(w.shop, w.processes[i].job);
    hide Step, Finalise, PostingsOf, Cancel, SettleRow, Admit;
    NotSelling(w.shop, w.processes[i].job);
  }

  lemma NotSelling(shop: Shop, job: Job)
    ensures !Sells(job) ==> Admit(shop, job) !in {Paying, Confirming, Finishing}
  {
    RequestedIsRow(shop.refunds, job.booking);
  }

  /** The payment row that a turn inserts. */
  lemma NewPayment(w: World, t: Turn, key: PayKey)
    requires key in Deal(w, t).shop.payments && key !in w.shop.payments
    ensures t.Run? && t.i < |w.processes| && w.processes[t.i].phase == Paying && Sells(w.processes[t.i].job)
    ensures var job := w.processes[t.i].job;
      job.booking in w.shop.bookings && Deal(w, t).shop.bookings == w.shop.bookings && Deal(w, t).shop.payments[key].amount > 0
      && IsPaymentOf(job, w.shop.bookings[job.booking], key, Deal(w, t).shop.payments[key])
  {
    hide Step, PostingsOf, Admit, Journal, Issue, Void, Refund, CancelPostings, SettlePostings;
  }

  lemma PaymentStays(w: World, t: Turn, key: PayKey)
    requires PaymentOk(w, key) && forall i: nat :: UnderWay(w, i)
    ensures PaymentOk(Deal(w, t), key)
  {
    var w2 := Deal(w, t);
    if key in w.shop.payments {
      DealKeepsPayment(w, t, key);
      var i: nat :| Genuine(w, i) && IsPaymentOf(w.processes[i].job, w.shop.bookings[w.processes[i].job.booking], key, w.shop.payments[key]);
      GenuineStays(w, t, i);
      assert IsPaymentOf(w2.processes[i].job, w2.shop.bookings[w2.processes[i].job.booking], key, w2.shop.payments[key]);
    } else if key in w2.shop.payments {
      NewPayment(w, t, key);
      assert UnderWay(w, t.i);
      GenuineStays(w, t, t.i);
      assert IsPaymentOf(w2.processes[t.i].job, w2.shop.bookings[w2.processes[t.i].job.booking], key, w2.shop.payments[key]);
    }
    hide Deal, Genuine;
  }

  /** The journals that a turn adds. */
  lemma NewJournal(w: World, t: Turn, n: nat)
    requires n < |Deal(w, t).shop.journals| && Deal(w, t).shop.journals[n].reason == SALE
    ensures n < |w.shop.journals| ==> Deal(w, t).shop.journals[n] == w.shop.journals[n]
    ensures n >= |w.shop.journals| ==>
      && t.Run? && t.i < |w.processes| && w.processes[t.i].phase == Finishing && Sells(w.processes[t.i].job)
      && var job := w.processes[t.i].job;
      && job.booking in w.shop.bookings && Journal(PostingsOf(job, w.shop.bookings[job.booking])).Some?
      && Deal(w, t).shop.journals[n] == Entry(job.booking, SALE, Journal(PostingsOf(job, w.shop.bookings[job.booking])).value)
  {
    hide Step, PostingsOf, Admit, Journal, Issue, Void, Refund, CancelPostings, SettlePostings;
  }

  lemma JournalStays(w: World, t: Turn, n: nat)
    requires JournalOk(w, n) && forall i: nat :: UnderWay(w, i)
    ensures JournalOk(Deal(w, t), n)
  {
    var w2 := Deal(w, t);
    if n < |w2.shop.journals| && w2.shop.journals[n].reason == SALE {
      NewJournal(w, t, n);
      if n < |w.shop.journals| {
        var i: nat :| Genuine(w, i) && SplitsAs(w.shop.journals[n], w.processes[i].job, w.shop.bookings[w.processes[i].job.booking]);
        GenuineStays(w, t, i);
        SameSplit(w.shop.journals[n], w.processes[i].job, w.shop.bookings[w.processes[i].job.booking], w2.shop.bookings[w.processes[i].job.booking]);
      } else {
        var job := w.processes[t.i].job;
        assert UnderWay(w, t.i);
        GenuineStays(w, t, t.i);
        SaleJournal(job, w.shop.bookings[job.booking]);
        SameSplit(w2.shop.journals[n], job, w.shop.bookings[job.booking], w2.shop.bookings[job.booking]);
      }
    }
    hide Deal, Genuine, SplitsAs, Journal, PostingsOf;
  }

  lemma SameSplit(e: Entry, job: Job, k: Booking, k2: Booking)
    requires k2 == k.(status := k2.status)
    ensures e.booking == job.booking && CoversFee(job, k) && (forall acc :: Net(e.lines, acc) == SaleEffect(job, k, acc)) ==> SplitsAs(e, job, k2)
    ensures SplitsAs(e, job, k) ==> SplitsAs(e, job, k2)
  {
    forall acc ensures SaleEffect(job, k2, acc) == SaleEffect(job, k, acc) {}
    hide Net, PaidEffect, MoveEffect;
  }

  /** The refund row that a turn adds. */
  lemma NewRefundRow(w: World, t: Turn, n: nat)
    requires n < |Deal(w, t).shop.refunds|
    ensures n < |w.shop.refunds| ==> Deal(w, t).shop.refunds[n] == w.shop.refunds[n].(requested := Deal(w, t).shop.refunds[n].requested)
    ensures n >= |w.shop.refunds| ==>
      && t.Run? && t.i < |w.processes| && w.processes[t.i].phase == Refunding && w.processes[t.i].job.Cancellation?
      && var job := w.processes[t.i].job;
      && job.booking in w.shop.bookings && Deal(w, t).shop.refunds[n].booking == job.booking
      && Deal(w, t).shop.refunds[n].amount == Refund(w.shop.bookings[job.booking].total, job.pct)
  {
    hide Step, PostingsOf, Admit, Journal, Issue, Void, Refund, CancelPostings, SettlePostings;
  }

  lemma RefundStays(w: World, t: Turn, n: nat)
    requires RefundOk(w, n) && SagaRuns.Inv(w)
    ensures RefundOk(Deal(w, t), n)
  {
    var w2 := Deal(w, t);
    if n < |w2.shop.refunds| {
      NewRefundRow(w, t, n);
      if n < |w.shop.refunds| {
        var i: nat :| i < |w.processes| && IsRefundOf(w.shop, w.shop.refunds[n], w.processes[i].job);
        JobsStay(w, t, i);
        TermsStay(w, t, w.processes[i].job.booking);
        assert IsRefundOf(w2.shop, w2.shop.refunds[n], w2.processes[i].job);
      } else {
        var job := w.processes[t.i].job;
        assert ProcessOk(w.db, w.shop, w.freed, w.processes[t.i]);
        JobsStay(w, t, t.i);
        TermsStay(w, t, job.booking);
        if 0 <= job.pct <= 100 && w.shop.bookings[job.booking].total >= 0 { FloorOf(w.shop.bookings[job.booking].total, job.pct); }
        assert IsRefundOf(w2.shop, w2.shop.refunds[n], w2.processes[t.i].job);
      }
    }
    hide Deal, Refund, BookingOk, PaidApart, Audited, HoldsApart;
  }

  lemma TracedStays(w: World, t: Turn)
    requires Traced(w) && SagaRuns.Inv(w)
    ensures Traced(Deal(w, t))
  {
    hide Deal, SagaRuns.Inv, PaymentOk, JournalOk, RefundOk, UnderWay;
    forall key ensures PaymentOk(Deal(w, t), key) { PaymentStays(w, t, key); }
    forall n: nat ensures JournalOk(Deal(w, t), n) { JournalStays(w, t, n); }
    forall n: nat ensures RefundOk(Deal(w, t), n) { RefundStays(w, t, n); }
    forall i: nat ensures UnderWay(Deal(w, t), i) { UnderWayStays(w, t, i); }
  }

  lemma {:induction false} TracedAlways(w: World, turns: seq<Turn>)
    requires Traced(w) && SagaRuns.Inv(w)
    ensures Traced(Play(w, turns))
    decreases |turns|
  {
    hide Deal, SagaRuns.Inv, Traced;
    if turns != [] {
      TracedStays(w, turns[0]);
      DealKeeps(w, turns[0]);
      TracedAlways(Deal(w, turns[0]), turns[1..]);
    }
  }

  /** Over every run: each payment row is that of a request of the run, over the amount that its booking was to be paid,
      signed and in taka if it came by webhook; each sale journal splits that amount as the tariff says; and each
      refund row is the part of the total that its cancellation was to pay back, rounded down to a poisha. */
  lemma RowsAreTraced(db: Db, jobs: seq<Job>, turns: seq<Turn>)
    ensures Traced(Play(Opening(db, jobs), turns))
  {
    OpeningOk(db, jobs);
    TracedAlways(Opening(db, jobs), turns);
    hide Play;
  }

  // ---- too late ---------------------------------------------------------------------------------

  predicate Decided(w: World, b: BookingId) { b in w.shop.bookings && w.shop.bookings[b].status != PAYMENT_PENDING }

  lemma DecidedStays(w: World, t: Turn, b: BookingId)
    requires Decided(w, b)
    ensures Decided(Deal(w, t), b)
  {
    hide Step, Refundable, PostingsOf, Issue, Journal, Void, SagaTables.Inserts, Admit, Refund, CancelPostings, SettlePostings;
  }

  lemma LateStays(w: World, t: Turn, i: nat)
    requires i < |w.processes| && (w.processes[i].job.CounterSale? || w.processes[i].job.AgentSale?)
    requires w.processes[i].phase in {Begin, Done} && Decided(w, w.processes[i].job.booking)
    ensures i < |Deal(w, t).processes| && Deal(w, t).processes[i].job == w.processes[i].job
    ensures Deal(w, t).processes[i].phase in {Begin, Done} && Decided(Deal(w, t), w.processes[i].job.booking)
    ensures t == Run(i) ==> Deal(w, t).db == w.db && Deal(w, t).shop == w.shop
  {
    DecidedStays(w, t, w.processes[i].job.booking);
    hide Step, Finalise, PostingsOf, Cancel, SettleRow;
  }

  /** A settlement at a counter or an agency that starts when its booking is not pending (any more) never writes
      anything, whatever happens in between. */
  lemma {:induction false} LateSettlementWritesNothing(w: World, turns: seq<Turn>, i: nat)
    requires i < |w.processes| && (w.processes[i].job.CounterSale? || w.processes[i].job.AgentSale?)
    requires w.processes[i].phase in {Begin, Done} && Decided(w, w.processes[i].job.booking)
    ensures var w2 := Play(w, turns);
      && i < |w2.processes| && w2.processes[i].phase in {Begin, Done}
      && Deal(w2, Run(i)).db == w2.db && Deal(w2, Run(i)).shop == w2.shop
    decreases |turns|
  {
    hide Deal;
    if turns == [] {
      LateStays(w, Run(i), i);
    } else {
      LateStays(w, turns[0], i);
      LateSettlementWritesNothing(Deal(w, turns[0]), turns[1..], i);
    }
  }
}
