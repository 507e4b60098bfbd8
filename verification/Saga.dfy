/** The payment-to-ticket saga of services/commerce/commerce, over the inventory tables. */
module SagaTables {
  import opened Wrappers
  import opened Inventory
  import opened Ledger

  type BookingId = nat

  datatype Provider = BKASH | NAGAD | CARD | BANK | CASH | AGENT_WALLET

  /** UNIQUE (provider, provider_txn_id). At a counter or an agency the transaction id is the booking id. */
  datatype PayKey = PayKey(provider: Provider, txn: nat)
  datatype Payment = Payment(booking: BookingId, amount: int)

  datatype BookingStatus = PAYMENT_PENDING | TICKETED | CANCELLED | REFUND_PENDING | REFUNDED

  /** `instead` is the total of the booking that a reschedule replaces, `due` what is left to pay for it. */
  datatype Booking = Booking(hold: HoldId, seats: seq<SeatNo>, status: BookingStatus, total: int, due: int, instead: Option<int>)

  datatype TicketKey = TicketKey(booking: BookingId, no: SeatNo)
  datatype TicketStatus = VALID | VOID
  /** What a journal is for; SETTLED names the refund row it discharges. */
  datatype Reason = SALE | REFUND | SETTLED(row: nat)
  datatype Entry = Entry(booking: BookingId, reason: Reason, lines: seq<Posting>)
  datatype RefundRow = RefundRow(booking: BookingId, amount: int, requested: bool)

  datatype Shop = Shop(
    bookings: map<BookingId, Booking>,
    payments: map<PayKey, Payment>,
    tickets: map<TicketKey, TicketStatus>,
    journals: seq<Entry>,
    history: seq<(BookingId, BookingStatus)>,
    refunds: seq<RefundRow>)

  const NO_SHOP := Shop(map[], map[], map[], [], [], [])

  // ---- the meaning of the transactions ----------------------------------------------------

  /** CreateBooking: the id is fresh, the price comes from the request. */
  function Create(shop: Shop, b: BookingId, hold: HoldId, seats: seq<SeatNo>, total: int): Shop {
    shop.(bookings := shop.bookings[b := Booking(hold, seats, PAYMENT_PENDING, total, 0, None)])
  }

  /** What the webhook must have paid: COALESCE(NULLIF(amount_due_poisha, 0), total_poisha). */
  function Expected(k: Booking): int { if k.due != 0 then k.due else k.total }

  /** INSERT INTO payments ... ON CONFLICT DO NOTHING RETURNING, with CHECK (amount_poisha > 0). */
  predicate Inserts(shop: Shop, key: PayKey, p: Payment) { key !in shop.payments && p.amount > 0 }

  function Pay(shop: Shop, key: PayKey, p: Payment): Shop {
    if Inserts(shop, key, p) then shop.(payments := shop.payments[key := p]) else shop
  }

  /** One ticket per seat; a ticket that exists is left alone. */
  function Issue(tickets: map<TicketKey, TicketStatus>, b: BookingId,
          seats: seq<SeatNo>): map<TicketKey, TicketStatus> {
    (map no | no in seats :: TicketKey(b, no) := VALID) + tickets
  }

  lemma IssueAt(tickets: map<TicketKey, TicketStatus>, b: BookingId, seats: seq<SeatNo>)
    ensures forall t :: t in Issue(tickets, b, seats) <==> t in tickets || (t.booking == b && t.no in seats)
    ensures forall t :: t in Issue(tickets, b, seats) ==> Issue(tickets, b, seats)[t] == if t in tickets then tickets[t] else VALID
  {
  }

  lemma IssueNext(tickets: map<TicketKey, TicketStatus>, b: BookingId, seats: seq<SeatNo>, no: SeatNo)
    ensures Issue(tickets, b, []) == tickets
    ensures var now := Issue(tickets, b, seats);
      Issue(tickets, b, seats + [no]) == if TicketKey(b, no) in now then now else now[TicketKey(b, no) := VALID]
  {
    IssueAt(tickets, b, []);
    IssueAt(tickets, b, seats);
    IssueAt(tickets, b, seats + [no]);
    hide Issue;
  }

  function Mark(shop: Shop, b: BookingId, status: BookingStatus): Shop
    requires b in shop.bookings
  {
    shop.(bookings := shop.bookings[b := shop.bookings[b].(status := status)], history := shop.history + [(b, status)])
  }

  /** Finalise: at most once per booking, tickets and journal in one transaction. */
  function Finalise(shop: Shop, b: BookingId, postings: seq<Posting>): Shop {
    if b !in shop.bookings || shop.bookings[b].status != PAYMENT_PENDING || Journal(postings) == None then shop
    else
      Mark(shop, b, TICKETED).(
        tickets := Issue(shop.tickets, b, shop.bookings[b].seats),
        journals := shop.journals + [Entry(b, SALE, Journal(postings).value)])
  }

  /** The ledger accepts the cancellation journal, and refunds its CHECK (amount_poisha >= 0). */
  predicate Refundable(total: int, pct: int) { Journal(CancelPostings(total, pct)).Some? && Refund(total, pct) >= 0 }

  /** The transaction of CancelBooking: nothing in it looks at the status again. */
  function Cancel(shop: Shop, b: BookingId, pct: int): Shop {
    if b !in shop.bookings || !Refundable(shop.bookings[b].total, pct) then shop
    else
      var refund, lines := Refund(shop.bookings[b].total, pct), Journal(CancelPostings(shop.bookings[b].total, pct)).value;
      Mark(shop, b, if refund > 0 then REFUND_PENDING else CANCELLED).(
        tickets := Void(shop.tickets, b),
        journals := if refund > 0 then shop.journals + [Entry(b, REFUND, lines)] else shop.journals,
        refunds := shop.refunds + [RefundRow(b, refund, refund > 0)])
  }

  function Void(tickets: map<TicketKey, TicketStatus>, b: BookingId): map<TicketKey, TicketStatus> {
    map t | t in tickets :: if t.booking == b then VOID else tickets[t]
  }

  /** The transaction of SettleRefund, for the refund row it has read. */
  function SettleRow(shop: Shop, n: nat): Shop {
    if n >= |shop.refunds| || shop.refunds[n].booking !in shop.bookings || Journal(SettlePostings(shop.refunds[n].amount)) == None then shop
    else
      Mark(shop, shop.refunds[n].booking, REFUNDED).(
        journals := shop.journals + [Entry(shop.refunds[n].booking, SETTLED(n), Journal(SettlePostings(shop.refunds[n].amount)).value)],
        refunds := shop.refunds[n := shop.refunds[n].(requested := false)])
  }

  lemma NegativeLine(ps: seq<Posting>, i: nat)
    requires i < |ps| && ps[i].amount < 0
    ensures Journal(ps) == None
  {
    JournalIff(ps);
    assert ps[i] in ps;
  }
}

/** The same transactions, statement by statement. */
module Commerce {
  import opened Wrappers
  import opened Inventory
  import opened Ledger
  import opened SagaTables

  class Desk {
    var bookings: map<BookingId, Booking>
    var payments: map<PayKey, Payment>
    var tickets: map<TicketKey, TicketStatus>
    var journals: seq<Entry>
    var history: seq<(BookingId, BookingStatus)>
    var refunds: seq<RefundRow>

    function Tables(): Shop
      reads this
    {
      Shop(bookings, payments, tickets, journals, history, refunds)
    }

    constructor ()
      ensures Tables() == NO_SHOP
    {
      bookings, payments, tickets, journals, history, refunds := map[], map[], map[], [], [], [];
    }

    method Rollback(saved: Shop)
      modifies this
      ensures Tables() == saved
    {
      bookings, payments, tickets, journals, history, refunds :=
        saved.bookings, saved.payments, saved.tickets, saved.journals, saved.history, saved.refunds;
    }

    method InsertPayment(key: PayKey, p: Payment) returns (inserted: bool)
      modifies this`payments
      ensures inserted == Inserts(old(Tables()), key, p) && Tables() == Pay(old(Tables()), key, p)
    {
      if key in payments || p.amount <= 0 { return false; }
      payments := payments[key := p];
      return true;
    }

    method CreateBooking(b: BookingId, hold: HoldId, seats: seq<SeatNo>, total: int)
      modifies this`bookings
      ensures Tables() == Create(old(Tables()), b, hold, seats, total)
    {
      bookings := bookings[b := Booking(hold, seats, PAYMENT_PENDING, total, 0, None)];
    }

    method IssueTickets(b: BookingId, seats: seq<SeatNo>)
      modifies this`tickets
      ensures tickets == Issue(old(tickets), b, seats)
    {
      hide Issue;
      IssueNext(tickets, b, [], 0);
      for i := 0 to |seats|
        invariant tickets == Issue(old(tickets), b, seats[..i])
      {
        assert seats[..i + 1] == seats[..i] + [seats[i]];
        IssueNext(old(tickets), b, seats[..i], seats[i]);
        if TicketKey(b, seats[i]) !in tickets { tickets := tickets[TicketKey(b, seats[i]) := VALID]; }
      }
      assert seats[..|seats|] == seats;
    }

    /** The ledger_entries of one journal: zero lines are skipped, a negative one or an unbalanced list fails. */
    method PostLines(postings: seq<Posting>) returns (r: Option<seq<Posting>>)
      ensures r == Journal(postings)
    {
      var lines: seq<Posting> := [];
      var dr, cr := 0, 0;
      for i := 0 to |postings|
        invariant lines == Lines(postings[..i]) && forall p :: p in lines ==> p.amount > 0
        invariant dr == Total(lines, DR) && cr == Total(lines, CR)
      {
        assert postings[..i + 1][..i] == postings[..i];
        var p := postings[i];
        if p.amount < 0 {
          NegativeLine(postings, i);
          return None;
        }
        if p.amount != 0 {
          OneLine(p);
          Append(lines, [p]);
          lines := lines + [p];
          if p.side == DR { dr := dr + p.amount; } else { cr := cr + p.amount; }
        }
      }
      assert postings[..|postings|] == postings;
      return if dr == cr then Some(lines) else None;
    }

    method Finalise(b: BookingId, postings: seq<Posting>) returns (ok: bool)
      modifies this
      ensures Tables() == SagaTables.Finalise(old(Tables()), b, postings)
      ensures ok <==> !(b in old(bookings) && old(bookings)[b].status == PAYMENT_PENDING && Journal(postings) == None)
    {
      if b !in bookings || bookings[b].status != PAYMENT_PENDING { return true; }
      var saved := Tables();
      bookings, history := bookings[b := bookings[b].(status := TICKETED)], history + [(b, TICKETED)];
      IssueTickets(b, bookings[b].seats);
      var lines := PostLines(postings);
      if lines == None { Rollback(saved); return false; }
      journals := journals + [Entry(b, SALE, lines.value)];
      return true;
    }

    /** The transaction of CancelBooking. */
    method BookCancellation(b: BookingId, pct: int) returns (ok: bool)
      requires b in bookings
      modifies this
      ensures Tables() == SagaTables.Cancel(old(Tables()), b, pct)
      ensures ok <==> Refundable(old(bookings)[b].total, pct)
    {
      var saved, refund := Tables(), Refund(bookings[b].total, pct);
      var lines := PostLines(CancelPostings(bookings[b].total, pct));
      if lines == None || refund < 0 { return false; }
      if refund > 0 { journals := journals + [Entry(b, REFUND, lines.value)]; }
      refunds := refunds + [RefundRow(b, refund, refund > 0)];
      var status := if refund > 0 then REFUND_PENDING else CANCELLED;
      bookings, history := bookings[b := bookings[b].(status := status)], history + [(b, status)];
      tickets := map t | t in tickets :: if t.booking == b then VOID else tickets[t];
      return true;
    }

    /** The transaction of SettleRefund, for the row it has read. */
    method SettleRefund(n: nat) returns (ok: bool)
      requires n < |refunds| && refunds[n].booking in bookings
      modifies this
      ensures Tables() == SettleRow(old(Tables()), n)
      ensures ok <==> Journal(SettlePostings(old(refunds)[n].amount)).Some?
    {
      var b := refunds[n].booking;
      var lines := PostLines(SettlePostings(refunds[n].amount));
      if lines == None { return false; }
      journals := journals + [Entry(b, SETTLED(n), lines.value)];
      refunds := refunds[n := refunds[n].(requested := false)];
      bookings, history := bookings[b := bookings[b].(status := REFUNDED)], history + [(b, REFUNDED)];
      return true;
    }
  }
}
