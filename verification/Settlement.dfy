/** HandleWebhook, SettleCounterSale, SettleAgentSale and CancelBooking, run without interference: each does
    exactly the steps that its process takes in `SagaRuns`, one after the other. */
module Settlement {
  import opened Wrappers
  import opened Inventory
  import opened Ownership
  import opened Laws
  import opened InventoryStore
  import opened Ledger
  import opened SagaTables
  import opened Commerce
  import opened SagaRuns
  import opened Payments

  function Alone(db: Db, shop: Shop, job: Job): World { World(db, shop, [Process(job, Begin)], {}) }

  function Next(w: World): World { Deal(w, Run(0)) }

  lemma AdmitStep(db: Db, shop: Shop, job: Job)
    ensures Next(Alone(db, shop, job)) == World(db, shop, [Process(job, Admit(shop, job))], {})
  {
    hide Admit;
  }

  lemma RefusedStaysDone(db: Db, shop: Shop, job: Job)
    ensures Next(World(db, shop, [Process(job, Done)], {})) == World(db, shop, [Process(job, Done)], {})
  {
  }

  lemma PayStep(db: Db, shop: Shop, job: Job)
    requires Sells(job) && job.booking in shop.bookings
    ensures var p := Payment(job.booking, AmountOf(job, shop.bookings[job.booking]));
      Next(World(db, shop, [Process(job, Paying)], {}))
        == World(db, Pay(shop, KeyOf(job), p), [Process(job, if Inserts(shop, KeyOf(job), p) then Confirming else Done)], {})
  {
  }

  lemma ConfirmStep(db: Db, shop: Shop, job: Job)
    requires job.booking in shop.bookings
    ensures var r := Step(db, OpConfirm(shop.bookings[job.booking].hold));
      Next(World(db, shop, [Process(job, Confirming)], {})) == World(r.db, shop, [Process(job, if r.out == Ok then Finishing else Done)], {})
  {
    hide Step;
  }

  lemma FinishStep(db: Db, shop: Shop, job: Job)
    requires Sells(job) && job.booking in shop.bookings
    ensures Next(World(db, shop, [Process(job, Finishing)], {}))
         == World(db, Finalise(shop, job.booking, PostingsOf(job, shop.bookings[job.booking])), [Process(job, Done)], {})
  {
    hide PostingsOf, Finalise;
  }

  lemma ReleaseStep(db: Db, shop: Shop, job: Job)
    requires job.booking in shop.bookings
    ensures var r := Step(db, OpUnsell(shop.bookings[job.booking].hold));
      Next(World(db, shop, [Process(job, Releasing)], {})) ==
        if r.out == Ok then World(r.db, shop, [Process(job, Refunding)], {job.booking}) else World(db, shop, [Process(job, Done)], {})
  {
    hide Step;
  }

  lemma RefundStep(db: Db, shop: Shop, job: Job, freed: set<BookingId>)
    requires job.Cancellation? && job.booking in shop.bookings
    ensures Next(World(db, shop, [Process(job, Refunding)], freed))
         == World(db, Cancel(shop, job.booking, job.pct), [Process(job, Done)], freed)
  {
    hide Cancel;
  }

  /** ConfirmHold accepts exactly the holds that are HELD or CONFIRMED. */
  lemma ConfirmableIff(db: Db, own: Owners, h: HoldId)
    requires Refines(db, own)
    ensures Step(db, OpConfirm(h)).out == Ok <==> h in db.holds && (db.holds[h].status == HELD || db.holds[h].status == CONFIRMED)
  {
    HoldIsNeverLost(db, own, h);
  }

  /** The transaction id under which the payment of the job is recorded is new, and the amount positive. */
  predicate FirstOfItsId(shop: Shop, job: Job, k: Booking)
    requires Sells(job)
  {
    match job
    case Webhook(_, key, amount, _, _) => key !in shop.payments && amount > 0
    case CounterSale(b, instrument) => PayKey(instrument, b) !in shop.payments && k.total > 0
    case AgentSale(b) => PayKey(AGENT_WALLET, b) !in shop.payments && k.total > 0
  }

  /** A payment for a pending booking, undisturbed, tickets it exactly when a webhook is signed, in taka and over
      the amount due, its transaction id is new, the hold has not been released or expired, and the amounts of the
      split cover the service fee; if it does not, the booking is as it was. */
  lemma SettlementTicketsIff(db: Db, own: Owners, shop: Shop, job: Job)
    requires Refines(db, own) && Sells(job) && job.booking in shop.bookings
    requires shop.bookings[job.booking].status == PAYMENT_PENDING
    ensures var k := shop.bookings[job.booking];
      var w := Next(Next(Next(Next(Alone(db, shop, job)))));
      && job.booking in w.shop.bookings
      && (w.shop.bookings[job.booking].status == TICKETED <==>
            && (job.Webhook? ==> job.signed && job.bdt && job.amount == (if k.due != 0 then k.due else k.total))
            && FirstOfItsId(shop, job, k)
            && k.hold in db.holds && (db.holds[k.hold].status == HELD || db.holds[k.hold].status == CONFIRMED)
            && (if !job.Webhook? then k.total >= 5000
                else if k.instead == None then job.amount >= 5000 else k.instead.value >= 5000 && k.total >= 5000))
      && (w.shop.bookings[job.booking].status != TICKETED ==> w.shop.bookings == shop.bookings)
      && (w.shop.payments != shop.payments ==> forall key :: key in w.shop.payments && key !in shop.payments ==>
            IsPaymentOf(job, k, key, w.shop.payments[key]) && (job.Webhook? ==> job.signed && job.bdt))
  {
    var k, b := shop.bookings[job.booking], job.booking;
    var p := Payment(b, AmountOf(job, k));
    AdmitStep(db, shop, job);
    AdmitIff(shop, job);
    PaymentIs(job, k);
    AcceptedIff(job, k);
    if Admit(shop, job) == Paying && Inserts(shop, KeyOf(job), p) {
      PayStep(db, shop, job);
      var shop1 := Pay(shop, KeyOf(job), p);
      assert shop1.bookings == shop.bookings && shop1.payments == shop.payments[KeyOf(job) := p];
      ConfirmStep(db, shop1, job);
      ConfirmableIff(db, own, k.hold);
      var db2 := Step(db, OpConfirm(k.hold)).db;
      FinishStep(db2, shop1, job);
      RefusedStaysDone(db2, shop1, job);
      hide Next, Refines, Admit, Pay, Step, Journal, PostingsOf;
    } else {
      PayStep(db, shop, job);
      RefusedStaysDone(db, shop, job);
      hide Next, Refines, Admit, Journal, PostingsOf;
    }
  }

  /** Checks, payment and seats succeed, and a booking that is still pending has an acceptable journal. */
  predicate Accepts(db: Db, shop: Shop, job: Job)
    requires Sells(job)
  {
    && Passes(shop, job)
    && var k := shop.bookings[job.booking];
    && FirstOfItsId(shop, job, k)
    && ConfirmHold(db, k.hold).out == Ok
    && (k.status == PAYMENT_PENDING ==> CoversFee(job, k))
  }

  lemma InsertsIff(shop: Shop, job: Job, k: Booking)
    requires Sells(job)
    ensures Inserts(shop, KeyOf(job), Payment(job.booking, AmountOf(job, k))) <==> FirstOfItsId(shop, job, k)
  {
  }

  lemma AdmittedIsBooked(shop: Shop, job: Job)
    ensures Admit(shop, job) != Done ==> job.booking in shop.bookings
  {
  }

  class Channels {
    const inv: Store
    const desk: Desk

    constructor (inv: Store, desk: Desk)
      ensures this.inv == inv && this.desk == desk
    {
      this.inv, this.desk := inv, desk;
    }

    /** HandleWebhook, SettleCounterSale and SettleAgentSale differ in their checks, key, amount and accounts. */
    method Settle(job: Job) returns (accepted: bool)
      requires Sells(job)
      modifies inv, desk
      ensures var w := Next(Next(Next(Next(Alone(old(inv.Tables()), old(desk.Tables()), job)))));
        inv.Tables() == w.db && desk.Tables() == w.shop && w.processes[0].phase == Done
      ensures accepted <==> Accepts(old(inv.Tables()), old(desk.Tables()), job)
      ensures accepted ==> SagaRuns.Ticketed(desk.Tables(), job.booking)
    {
      AdmitStep(inv.Tables(), desk.Tables(), job);
      RefusedStaysDone(inv.Tables(), desk.Tables(), job);
      AdmittedIsBooked(desk.Tables(), job);
      AdmitIff(desk.Tables(), job);
      if job.booking in desk.bookings {
        AcceptedIff(job, desk.bookings[job.booking]);
        InsertsIff(desk.Tables(), job, desk.bookings[job.booking]);
      }
      hide Next, Admit, Pay, Step, Journal, PostingsOf, KeyOf, AmountOf, Inserts, FirstOfItsId, CoversFee;
      if Admit(desk.Tables(), job) != Paying { return false; }
      var b, k := job.booking, desk.bookings[job.booking];
      PayStep(inv.Tables(), desk.Tables(), job);
      var inserted := desk.InsertPayment(KeyOf(job), Payment(b, AmountOf(job, k)));
      RefusedStaysDone(inv.Tables(), desk.Tables(), job);
      if !inserted { return false; }
      ConfirmStep(inv.Tables(), desk.Tables(), job);
      var out := inv.ConfirmHold(k.hold);
      RefusedStaysDone(inv.Tables(), desk.Tables(), job);
      if out != Ok { return false; }
      FinishStep(inv.Tables(), desk.Tables(), job);
      accepted := desk.Finalise(b, PostingsOf(job, k));
    }

    /** CancelBooking: the quote, the seats, then the money, in two commits. */
    method CancelBooking(job: Job) returns (cancelled: bool)
      requires job.Cancellation?
      modifies inv, desk
      ensures var w := Next(Next(Next(Alone(old(inv.Tables()), old(desk.Tables()), job))));
        inv.Tables() == w.db && desk.Tables() == w.shop && w.processes[0].phase == Done
      ensures cancelled ==> job.booking in desk.bookings && desk.bookings[job.booking].status in {CANCELLED, REFUND_PENDING}
      ensures var b, shop, db := job.booking, old(desk.Tables()), old(inv.Tables());
        cancelled <==>
          && b in shop.bookings && shop.bookings[b].status == TICKETED && !job.departed && shop.bookings[b].hold in db.holds
          && Refundable(shop.bookings[b].total, job.pct)
      ensures cancelled ==> desk.Tables() == Cancel(old(desk.Tables()), job.booking, job.pct)
      ensures !cancelled ==> desk.Tables() == old(desk.Tables())
    {
      AdmitIff(desk.Tables(), job);
      AdmitStep(inv.Tables(), desk.Tables(), job);
      RefusedStaysDone(inv.Tables(), desk.Tables(), job);
      if Admit(desk.Tables(), job) != Releasing { return false; }
      var b := job.booking;
      ReleaseStep(inv.Tables(), desk.Tables(), job);
      hide Next, Admit, Step;
      var out := inv.ReleaseConfirmed(desk.bookings[b].hold);
      RefusedStaysDone(inv.Tables(), desk.Tables(), job);
      if out != Ok { return false; }
      RefundStep(inv.Tables(), desk.Tables(), job, {b});
      cancelled := desk.BookCancellation(b, job.pct);
    }
  }
}
