/** The double-entry arithmetic of services/commerce/commerce: posting lists, chains of
    reschedules, proportional refunds. Amounts are poisha; `/` in Go truncates towards zero. */
module Ledger {
  import opened Wrappers

  /** 1001, 1101, 5102, 2101, 2102, 2201, 4101 and 5301. */
  datatype Account =
    | Cash | GatewayClearing | GatewayFee | OperatorPayable | AgentPayable | RefundPayable | PlatformRevenue | CashVariance
  datatype Side = DR | CR
  datatype Posting = Posting(account: Account, side: Side, amount: int)

  function Quo(a: int, b: int): int
    requires b > 0
  {
    if a >= 0 then a / b else -(-a / b)
  }

  // ---- journals ---------------------------------------------------------------------

  function OnSide(p: Posting, side: Side): int { if p.side == side then p.amount else 0 }

  function OnAccount(p: Posting, a: Account): int {
    if p.account != a then 0 else if p.side == DR then p.amount else -p.amount
  }

  function Total(ps: seq<Posting>, side: Side): int {
    if ps == [] then 0 else Total(ps[..|ps| - 1], side) + OnSide(ps[|ps| - 1], side)
  }

  /** Debits minus credits of one account. */
  function Net(ps: seq<Posting>, a: Account): int {
    if ps == [] then 0 else Net(ps[..|ps| - 1], a) + OnAccount(ps[|ps| - 1], a)
  }

  predicate Balanced(ps: seq<Posting>) { Total(ps, DR) == Total(ps, CR) }

  /** The lines that are written: zero amounts are skipped. */
  function Lines(ps: seq<Posting>): seq<Posting> {
    if ps == [] then []
    else Lines(ps[..|ps| - 1]) + if ps[|ps| - 1].amount == 0 then [] else [ps[|ps| - 1]]
  }

  /** The journal, unless a line violates CHECK (amount_poisha > 0) or the sides do not balance. */
  function Journal(ps: seq<Posting>): Option<seq<Posting>> {
    var lines := Lines(ps);
    if (forall p :: p in lines ==> p.amount > 0) && Balanced(lines) then Some(lines) else None
  }

  lemma {:induction false} Append(a: seq<Posting>, b: seq<Posting>)
    ensures forall side :: Total(a + b, side) == Total(a, side) + Total(b, side)
    ensures forall acc :: Net(a + b, acc) == Net(a, acc) + Net(b, acc)
  {
    if b == [] {
      assert a + b == a;
    } else {
      assert (a + b)[..|a + b| - 1] == a + b[..|b| - 1];
      Append(a, b[..|b| - 1]);
    }
  }

  lemma {:induction false} LinesKeepTotals(ps: seq<Posting>)
    ensures forall side :: Total(Lines(ps), side) == Total(ps, side)
    ensures forall acc :: Net(Lines(ps), acc) == Net(ps, acc)
    ensures forall p :: p in Lines(ps) <==> p in ps && p.amount != 0
  {
    if ps != [] {
      var n := |ps| - 1;
      LinesKeepTotals(ps[..n]);
      assert ps == ps[..n] + [ps[n]];
      var head, last := Lines(ps[..n]), ps[n];
      if last.amount != 0 { assert (head + [last])[..|head|] == head; } else { assert head + [] == head; }
    }
  }

  /** A journal is refused exactly when a line is negative or the list does not balance. */
  lemma JournalIff(ps: seq<Posting>)
    ensures Journal(ps).Some? <==> Balanced(ps) && forall p :: p in ps ==> p.amount >= 0
  {
    LinesKeepTotals(ps);
    if Journal(ps).Some? {
      forall p | p in ps ensures p.amount >= 0 { assert p.amount != 0 ==> p in Lines(ps); }
    }
  }

  lemma OneLine(a: Posting)
    ensures forall side :: Total([a], side) == OnSide(a, side)
    ensures forall acc :: Net([a], acc) == OnAccount(a, acc)
  {
  }

  lemma TwoLines(a: Posting, b: Posting)
    ensures forall side :: Total([a, b], side) == OnSide(a, side) + OnSide(b, side)
    ensures forall acc :: Net([a, b], acc) == OnAccount(a, acc) + OnAccount(b, acc)
  {
    OneLine(a);
    OneLine(b);
    Append([a], [b]);
    assert [a] + [b] == [a, b];
  }

  lemma ThreeLines(a: Posting, b: Posting, c: Posting)
    ensures forall side :: Total([a, b, c], side) == OnSide(a, side) + OnSide(b, side) + OnSide(c, side)
    ensures forall acc :: Net([a, b, c], acc) == OnAccount(a, acc) + OnAccount(b, acc) + OnAccount(c, acc)
  {
    TwoLines(a, b);
    OneLine(c);
    Append([a, b], [c]);
    assert [a, b] + [c] == [a, b, c];
  }

  lemma FourLines(a: Posting, b: Posting, c: Posting, d: Posting)
    ensures forall side :: Total([a, b, c, d], side) == OnSide(a, side) + OnSide(b, side) + OnSide(c, side) + OnSide(d, side)
    ensures forall acc :: Net([a, b, c, d], acc) == OnAccount(a, acc) + OnAccount(b, acc) + OnAccount(c, acc) + OnAccount(d, acc)
  {
    TwoLines(a, b);
    TwoLines(c, d);
    Append([a, b], [c, d]);
    assert [a, b] + [c, d] == [a, b, c, d];
  }

  // ---- the split of a sale -------------------------------------------------------------

  const SERVICE_FEE := 5000

  function Commission(gross: int): int { Quo(gross - SERVICE_FEE, 10) }
  function OperatorShare(gross: int): int { gross - SERVICE_FEE - Commission(gross) }
  function PlatformShare(gross: int): int { Commission(gross) + SERVICE_FEE }
  function GatewayCut(gross: int): int { Quo(gross * 15, 1000) }

  function GatewayPostings(gross: int): seq<Posting> {
    [Posting(GatewayClearing, DR, gross - GatewayCut(gross)), Posting(GatewayFee, DR, GatewayCut(gross)),
     Posting(OperatorPayable, CR, OperatorShare(gross)), Posting(PlatformRevenue, CR, PlatformShare(gross))]
  }

  function CounterPostings(gross: int, cash: bool): seq<Posting> {
    if cash then
      [Posting(Cash, DR, gross),
       Posting(OperatorPayable, CR, OperatorShare(gross)), Posting(PlatformRevenue, CR, PlatformShare(gross))]
    else
      [Posting(GatewayClearing, DR, gross - GatewayCut(gross)), Posting(GatewayFee, DR, GatewayCut(gross)),
       Posting(OperatorPayable, CR, OperatorShare(gross)), Posting(PlatformRevenue, CR, PlatformShare(gross))]
  }

  function AgentPostings(gross: int): seq<Posting> {
    [Posting(AgentPayable, DR, gross),
     Posting(OperatorPayable, CR, OperatorShare(gross)), Posting(PlatformRevenue, CR, PlatformShare(gross))]
  }

  /** Reverses the split of the old total, books the split of the new one, and nets the difference. */
  function ReschedulePostings(oldTotal: int, newTotal: int): seq<Posting> {
    [Posting(OperatorPayable, DR, OperatorShare(oldTotal)), Posting(PlatformRevenue, DR, PlatformShare(oldTotal)),
     Posting(OperatorPayable, CR, OperatorShare(newTotal)), Posting(PlatformRevenue, CR, PlatformShare(newTotal))]
    + Difference(newTotal - oldTotal)
  }

  function Difference(diff: int): seq<Posting> {
    if diff > 0 then [Posting(GatewayClearing, DR, diff)] else if diff < 0 then [Posting(RefundPayable, CR, -diff)] else []
  }

  lemma SaleLines(gross: int)
    ensures Balanced(GatewayPostings(gross)) && Balanced(CounterPostings(gross, true)) && Balanced(AgentPostings(gross))
    ensures forall acc :: Net(GatewayPostings(gross), acc) ==
              if acc == GatewayClearing then gross - GatewayCut(gross) else if acc == GatewayFee then GatewayCut(gross)
              else if acc == OperatorPayable then -OperatorShare(gross) else if acc == PlatformRevenue then -PlatformShare(gross) else 0
    ensures forall acc :: Net(CounterPostings(gross, true), acc) ==
              if acc == Cash then gross
              else if acc == OperatorPayable then -OperatorShare(gross) else if acc == PlatformRevenue then -PlatformShare(gross) else 0
    ensures forall acc :: Net(AgentPostings(gross), acc) ==
              if acc == AgentPayable then gross
              else if acc == OperatorPayable then -OperatorShare(gross) else if acc == PlatformRevenue then -PlatformShare(gross) else 0
    ensures forall acc :: Net(CounterPostings(gross, false), acc) == Net(GatewayPostings(gross), acc)
  {
    var op, plat := Posting(OperatorPayable, CR, OperatorShare(gross)), Posting(PlatformRevenue, CR, PlatformShare(gross));
    FourLines(Posting(GatewayClearing, DR, gross - GatewayCut(gross)), Posting(GatewayFee, DR, GatewayCut(gross)), op, plat);
    ThreeLines(Posting(Cash, DR, gross), op, plat);
    ThreeLines(Posting(AgentPayable, DR, gross), op, plat);
  }

  lemma RescheduleLines(oldTotal: int, newTotal: int)
    ensures Balanced(ReschedulePostings(oldTotal, newTotal))
    ensures forall acc :: Net(ReschedulePostings(oldTotal, newTotal), acc) ==
              if acc == OperatorPayable then OperatorShare(oldTotal) - OperatorShare(newTotal)
              else if acc == PlatformRevenue then PlatformShare(oldTotal) - PlatformShare(newTotal)
              else if acc == GatewayClearing && newTotal > oldTotal then newTotal - oldTotal
              else if acc == RefundPayable && newTotal < oldTotal then newTotal - oldTotal else 0
  {
    var a, b := Posting(OperatorPayable, DR, OperatorShare(oldTotal)), Posting(PlatformRevenue, DR, PlatformShare(oldTotal));
    var c, d := Posting(OperatorPayable, CR, OperatorShare(newTotal)), Posting(PlatformRevenue, CR, PlatformShare(newTotal));
    FourLines(a, b, c, d);
    var diff := newTotal - oldTotal;
    OneLine(Posting(GatewayClearing, DR, diff));
    OneLine(Posting(RefundPayable, CR, -diff));
    Append([a, b, c, d], Difference(diff));
  }

  /** The balance assertion never fires, whatever the totals. */
  lemma EveryListBalances(gross: int, newTotal: int, cash: bool)
    ensures Balanced(GatewayPostings(gross)) && Balanced(CounterPostings(gross, cash)) && Balanced(AgentPostings(gross))
    ensures Balanced(ReschedulePostings(gross, newTotal))
  {
    SaleLines(gross);
    RescheduleLines(gross, newTotal);
  }

  /** A sale is booked exactly when it covers the service fee: below it the operator's line is
      negative and the ledger refuses the journal. */
  lemma SaleIsBookedIff(gross: int, newTotal: int, cash: bool)
    ensures Journal(GatewayPostings(gross)).Some? <==> gross >= SERVICE_FEE
    ensures Journal(CounterPostings(gross, cash)).Some? <==> gross >= SERVICE_FEE
    ensures Journal(AgentPostings(gross)).Some? <==> gross >= SERVICE_FEE
    ensures Journal(ReschedulePostings(gross, newTotal)).Some? <==> gross >= SERVICE_FEE && newTotal >= SERVICE_FEE
  {
    hide Total, Net, Lines, Balanced, Journal;
    EveryListBalances(gross, newTotal, cash);
    JournalIff(GatewayPostings(gross));
    JournalIff(CounterPostings(gross, cash));
    JournalIff(AgentPostings(gross));
    JournalIff(ReschedulePostings(gross, newTotal));
    assert GatewayPostings(gross)[2] == AgentPostings(gross)[1] == CounterPostings(gross, true)[1] == Posting(OperatorPayable, CR, OperatorShare(gross));
    assert ReschedulePostings(gross, newTotal)[0] == Posting(OperatorPayable, DR, OperatorShare(gross));
    assert ReschedulePostings(gross, newTotal)[2] == Posting(OperatorPayable, CR, OperatorShare(newTotal));
  }

  /** What the split means: the two parties share the whole price, the platform gets its fee and a tenth
      of the rest rounded down, the gateway one and a half percent rounded down. */
  lemma SaleSplit(gross: int)
    ensures OperatorShare(gross) + PlatformShare(gross) == gross
    ensures gross >= SERVICE_FEE ==> var extra := PlatformShare(gross) - SERVICE_FEE; 0 <= gross - SERVICE_FEE - 10 * extra < 10
    ensures gross >= 0 ==> 0 <= 15 * gross - 1000 * GatewayCut(gross) < 1000
    ensures OperatorShare(120000) == 103500 && PlatformShare(120000) == 16500 && GatewayCut(120000) == 1800
  {
  }

  // ---- chains of reschedules --------------------------------------------------------------

  function Last(first: int, chain: seq<int>): int { if chain == [] then first else chain[|chain| - 1] }

  /** A gateway sale at `first`, then a reschedule to each total of the chain. */
  function Books(first: int, chain: seq<int>): seq<Posting> {
    if chain == [] then GatewayPostings(first)
    else
      var before := chain[..|chain| - 1];
      Books(first, before) + ReschedulePostings(Last(first, before), Last(first, chain))
  }

  /** What the cheaper departures of the chain owe back. */
  function Drops(first: int, chain: seq<int>): (d: int)
    ensures d >= 0
  {
    if chain == [] then 0
    else
      var before := chain[..|chain| - 1];
      Drops(first, before) + if Last(first, chain) < Last(first, before) then Last(first, before) - Last(first, chain) else 0
  }

  /** However often a booking is rescheduled, operator and platform hold what a direct sale at the
      last total gives them, and what was collected less what is owed back is that total. */
  lemma {:induction false} ChainTelescopes(first: int, chain: seq<int>)
    ensures Net(Books(first, chain), OperatorPayable) == Net(GatewayPostings(Last(first, chain)), OperatorPayable)
    ensures Net(Books(first, chain), PlatformRevenue) == Net(GatewayPostings(Last(first, chain)), PlatformRevenue)
    ensures Net(Books(first, chain), GatewayClearing) + Net(Books(first, chain), GatewayFee) + Net(Books(first, chain), RefundPayable)
            == Last(first, chain)
    ensures Net(Books(first, chain), RefundPayable) == -Drops(first, chain) && Net(Books(first, chain), GatewayFee) == GatewayCut(first)
  {
    hide OperatorShare, PlatformShare, GatewayCut, GatewayPostings, ReschedulePostings, Balanced, Net;
    SaleLines(Last(first, chain));
    if chain != [] {
      var before := chain[..|chain| - 1];
      ChainTelescopes(first, before);
      SaleLines(Last(first, before));
      RescheduleLines(Last(first, before), Last(first, chain));
      Append(Books(first, before), ReschedulePostings(Last(first, before), Last(first, chain)));
    }
  }

  // ---- refunds --------------------------------------------------------------------------

  function Refund(gross: int, pct: int): int { Quo(gross * pct, 100) }

  function OperatorRefund(gross: int, pct: int): int {
    if gross <= 0 then 0 else Quo(Refund(gross, pct) * OperatorShare(gross), gross)
  }

  function PlatformRefund(gross: int, pct: int): int { Refund(gross, pct) - OperatorRefund(gross, pct) }

  /** The journal of CancelBooking, written when there is something to refund. */
  function CancelPostings(gross: int, pct: int): seq<Posting> {
    if Refund(gross, pct) <= 0 then []
    else [Posting(OperatorPayable, DR, OperatorRefund(gross, pct)), Posting(PlatformRevenue, DR, PlatformRefund(gross, pct)),
          Posting(RefundPayable, CR, Refund(gross, pct))]
  }

  /** The journal of SettleRefund. A REJECTED refund of zero is not settled. */
  function SettlePostings(amount: int): seq<Posting> {
    if amount <= 0 then [] else [Posting(RefundPayable, DR, amount), Posting(GatewayClearing, CR, amount)]
  }

  lemma Scale(a: nat, b: nat, c: nat)
    requires a <= b
    ensures a * c <= b * c
  {
  }

  lemma Larger(a: int, b: int, c: nat)
    requires a > b
    ensures a * c >= b * c + c
  {
    Distribute(a, b, c);
    Scale(1, a - b, c);
  }

  lemma Distribute(a: int, b: int, c: int)
    ensures (a - b) * c == a * c - b * c && c * (a - b) == c * a - c * b
  {
  }

  /** From a floored quotient to its bounds. */
  lemma Quotient(n: nat, g: nat, bound: nat)
    requires g > 0 && n < bound * g + g
    ensures 0 <= n - n / g * g < g && n / g <= bound
  {
    if n / g > bound { Larger(n / g, bound, g); }
  }

  /** The part of `r` that goes to a party with `share` of `g`, rounded down. */
  lemma Proportion(r: nat, share: nat, g: nat)
    requires r <= g && share <= g && g > 0
    ensures var op := r * share / g; 0 <= op <= share && op <= r && 0 <= r * share - op * g < g
  {
    Scale(r, g, share);
    Scale(share, g, r);
    Quotient(r * share, g, share);
    Quotient(r * share, g, r);
  }

  /** The rest of `r` goes to the other party, rounded up. */
  lemma Remainder(r: nat, share: nat, g: nat)
    requires r <= g && share <= g && g > 0
    ensures var rest := r - r * share / g; rest <= g - share && 0 <= rest * g - r * (g - share) < g
  {
    var op := r * share / g;
    Proportion(r, share, g);
    Distribute(r, op, g);
    Distribute(g, share, r);
    Scale(r, g, g - share);
    if r - op > g - share { Larger(r - op, g - share, g); }
  }

  lemma Shares(gross: int)
    requires gross >= SERVICE_FEE
    ensures OperatorShare(gross) >= 0 && PlatformShare(gross) >= SERVICE_FEE && OperatorShare(gross) + PlatformShare(gross) == gross
  {
  }

  lemma RefundBounds(gross: int, pct: int)
    requires gross >= SERVICE_FEE && 0 <= pct <= 100
    ensures 0 <= Refund(gross, pct) <= gross && (pct == 100 ==> Refund(gross, pct) == gross)
  {
    Scale(pct, 100, gross);
  }

  /** The claw-back of each party: within what the sale gave it, and within one poisha of its proportion. */
  lemma RefundSplit(gross: int, pct: int)
    requires gross >= SERVICE_FEE && 0 <= pct <= 100
    ensures var r, op, plat := Refund(gross, pct), OperatorRefund(gross, pct), PlatformRefund(gross, pct);
      && r + (gross - r) == gross && op + plat == r
      && 0 <= op <= OperatorShare(gross) && 0 <= plat <= PlatformShare(gross)
      && 0 <= r * OperatorShare(gross) - op * gross < gross
      && 0 <= plat * gross - r * PlatformShare(gross) < gross
    ensures pct == 100 ==> OperatorRefund(gross, pct) == OperatorShare(gross) && PlatformRefund(gross, pct) == PlatformShare(gross)
  {
    Shares(gross);
    RefundBounds(gross, pct);
    Proportion(Refund(gross, pct), OperatorShare(gross), gross);
    Remainder(Refund(gross, pct), OperatorShare(gross), gross);
    assert OperatorRefund(gross, pct) == Refund(gross, pct) * OperatorShare(gross) / gross;
  }

  const MAX_INT64 := 0x7fff_ffff_ffff_ffff

  /** No product of the refund arithmetic leaves int64 up to thirty million taka. */
  lemma RefundFitsInt64(gross: int, pct: int)
    requires SERVICE_FEE <= gross <= 3_000_000_000 && 0 <= pct <= 100
    ensures gross * pct <= MAX_INT64 && gross * 15 <= MAX_INT64 && Refund(gross, pct) * OperatorShare(gross) <= MAX_INT64
  {
    Shares(gross);
    RefundBounds(gross, pct);
    Scale(pct, 100, gross);
    Scale(Refund(gross, pct), 3_000_000_000, OperatorShare(gross));
    Scale(OperatorShare(gross), 3_000_000_000, 3_000_000_000);
  }

  lemma CancelLines(gross: int, pct: int)
    requires gross >= SERVICE_FEE && 0 <= pct <= 100
    ensures Journal(CancelPostings(gross, pct)).Some? && Journal(SettlePostings(Refund(gross, pct))).Some?
    ensures forall acc :: Net(CancelPostings(gross, pct), acc) ==
              if acc == OperatorPayable then OperatorRefund(gross, pct) else if acc == PlatformRevenue then PlatformRefund(gross, pct)
              else if acc == RefundPayable then -Refund(gross, pct) else 0
    ensures forall acc :: Net(SettlePostings(Refund(gross, pct)), acc) ==
              if acc == RefundPayable then Refund(gross, pct) else if acc == GatewayClearing then -Refund(gross, pct) else 0
  {
    RefundSplit(gross, pct);
    RefundBounds(gross, pct);
    JournalIff(CancelPostings(gross, pct));
    JournalIff(SettlePostings(Refund(gross, pct)));
    if Refund(gross, pct) > 0 {
      ThreeLines(Posting(OperatorPayable, DR, OperatorRefund(gross, pct)), Posting(PlatformRevenue, DR, PlatformRefund(gross, pct)),
                 Posting(RefundPayable, CR, Refund(gross, pct)));
      var a, b := Posting(RefundPayable, DR, Refund(gross, pct)), Posting(GatewayClearing, CR, Refund(gross, pct));
      Append([a], [b]);
      assert [a] + [b] == [a, b];
    }
  }

  /** Sale, reschedules, cancellation, settled refund. */
  function WholeLife(first: int, chain: seq<int>, pct: int): seq<Posting> {
    var last := Last(first, chain);
    Books(first, chain) + CancelPostings(last, pct) + SettlePostings(Refund(last, pct))
  }

  /** After the refund is settled, Refund Payable is back at zero exactly when no reschedule was to a
      cheaper departure: those overpayments have no refund row that SettleRefund could pick up. */
  lemma RefundPayableClearsIff(first: int, chain: seq<int>, pct: int)
    requires Last(first, chain) >= SERVICE_FEE && 0 <= pct <= 100
    ensures Net(WholeLife(first, chain, pct), RefundPayable) == 0 <==> Drops(first, chain) == 0
    ensures Net(WholeLife(first, chain, pct), RefundPayable) == -Drops(first, chain)
    ensures -Net(WholeLife(first, chain, pct), OperatorPayable) == OperatorShare(Last(first, chain)) - OperatorRefund(Last(first, chain), pct) >= 0
    ensures -Net(WholeLife(first, chain, pct), PlatformRevenue) == PlatformShare(Last(first, chain)) - PlatformRefund(Last(first, chain), pct) >= 0
    ensures pct == 100 ==> Net(WholeLife(first, chain, pct), OperatorPayable) == 0 == Net(WholeLife(first, chain, pct), PlatformRevenue)
  {
    var last := Last(first, chain);
    ChainTelescopes(first, chain);
    SaleLines(last);
    CancelLines(last, pct);
    RefundSplit(last, pct);
    Append(Books(first, chain), CancelPostings(last, pct));
    Append(Books(first, chain) + CancelPostings(last, pct), SettlePostings(Refund(last, pct)));
  }
}
