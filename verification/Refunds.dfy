/** Cancellations and refund callbacks that overlap (services/commerce/commerce/cancellation.go): how often a
    booking is refunded, how often a refund is settled, and what account 2201 shows. */
module RefundRuns {
  import opened Wrappers
  import opened Inventory
  import opened Laws
  import opened Ledger
  import opened SagaTables
  import opened SagaRuns

  // ---- runs -------------------------------------------------------------------------------------

  lemma PlayOne(w: World, turns: seq<Turn>)
    requires turns != []
    ensures Play(w, turns) == Play(Deal(w, turns[0]), turns[1..])
  {
  }

  lemma {:induction false} PlayAppends(w: World, a: seq<Turn>, b: seq<Turn>)
    ensures Play(w, a + b) == Play(Play(w, a), b)
    decreases |a|
  {
    hide Deal;
    if a == [] {
      assert a + b == b;
    } else {
      assert (a + b)[0] == a[0] && (a + b)[1..] == a[1..] + b;
      PlayAppends(Deal(w, a[0]), a[1..], b);
    }
  }

  /** Process `i` takes `n` steps. */
  function Steps(w: World, i: nat, n: nat): World {
    if n == 0 then w else Deal(Steps(w, i, n - 1), Run(i))
  }

  lemma {:induction false} StepsPlay(w: World, i: nat, n: nat)
    ensures Play(w, seq(n, _ => Run(i))) == Steps(w, i, n)
  {
    hide Deal;
    if n > 0 {
      var init: seq<Turn> := seq(n - 1, _ => Run(i));
      assert seq(n, _ => Run(i)) == init + [Run(i)];
      StepsPlay(w, i, n - 1);
      PlayAppends(w, init, [Run(i)]);
      PlayOne(Steps(w, i, n - 1), [Run(i)]);
    }
  }

  // ---- cancelling one booking twice ---------------------------------------------------------------

  function RefundsOf(refunds: seq<RefundRow>, b: BookingId): nat {
    if refunds == [] then 0
    else RefundsOf(refunds[..|refunds| - 1], b) + if refunds[|refunds| - 1].booking == b then 1 else 0
  }

  lemma OneMoreRefund(refunds: seq<RefundRow>, r: RefundRow, b: BookingId)
    ensures RefundsOf(refunds + [r], b) == RefundsOf(refunds, b) + if r.booking == b then 1 else 0
  {
    assert (refunds + [r])[..|refunds|] == refunds;
  }

  lemma {:induction false} SameRefunds(refunds: seq<RefundRow>, n: nat, b: BookingId)
    requires n < |refunds|
    ensures RefundsOf(refunds[n := refunds[n].(requested := false)], b) == RefundsOf(refunds, b)
    ensures refunds[n].booking == b ==> RefundsOf(refunds, b) > 0
  {
    var k := |refunds| - 1;
    if n < k {
      SameRefunds(refunds[..k], n, b);
      assert refunds[n := refunds[n].(requested := false)][..k] == refunds[..k][n := refunds[..k][n].(requested := false)];
    } else {
      assert refunds[n := refunds[n].(requested := false)][..k] == refunds[..k];
    }
  }

  /** A cancellation of the booking that was not refused and has not finished, whose journal and refund
      row the database accepts. */
  predicate Canceller(w: World, i: nat, b: BookingId) {
    && i < |w.processes| && w.processes[i].job.Cancellation? && w.processes[i].job.booking == b
    && w.processes[i].phase != Done && !w.processes[i].job.departed
    && b in w.shop.bookings && Refundable(w.shop.bookings[b].total, w.processes[i].job.pct)
  }

  /** What its refund row says. */
  function RowOf(w: World, i: nat, b: BookingId): RefundRow
    requires Canceller(w, i, b)
  {
    var refund := Refund(w.shop.bookings[b].total, w.processes[i].job.pct);
    RefundRow(b, refund, refund > 0)
  }

  /** One more refund row of `b` needs one canceller fewer. */
  ghost predicate OneRefundLeft(w: World, b: BookingId) {
    && b in w.shop.bookings
    && (RefundsOf(w.shop.refunds, b) == 0 ==> forall i: nat, j: nat :: i < j && Canceller(w, i, b) ==> !Canceller(w, j, b))
    && (RefundsOf(w.shop.refunds, b) != 0 ==> RefundsOf(w.shop.refunds, b) == 1 && forall i: nat :: !Canceller(w, i, b))
  }

  lemma TotalIsFixed(w: World, t: Turn, b: BookingId)
    requires b in w.shop.bookings
    ensures b in Deal(w, t).shop.bookings && Deal(w, t).shop.bookings[b].total == w.shop.bookings[b].total
  {
    hide Step, Refundable, PostingsOf, Issue, Journal, Void, Inserts, Admit, Refund, CancelPostings, SettlePostings;
  }

  /** A turn creates no canceller. */
  lemma CancellersOnlyFinish(w: World, t: Turn, i: nat, b: BookingId)
    requires b in w.shop.bookings
    ensures Canceller(Deal(w, t), i, b) ==> Canceller(w, i, b)
  {
    TotalIsFixed(w, t, b);
    JobsStay(w, t, i);
    hide Deal, Refundable;
  }

  /** A turn that makes the table longer adds one row, and is the last commit of a canceller. */
  lemma NewRefund(w: World, t: Turn)
    requires Inv(w) && |Deal(w, t).shop.refunds| != |w.shop.refunds|
    ensures t.Run? && t.i < |w.processes| && Canceller(w, t.i, w.processes[t.i].job.booking)
    ensures t.i < |Deal(w, t).processes| && Deal(w, t).processes[t.i].phase == Done
    ensures exists r :: Deal(w, t).shop.refunds == w.shop.refunds + [r] && r.booking == w.processes[t.i].job.booking
  {
    assert ProcessOk(w.db, w.shop, w.freed, w.processes[t.i]);
    hide Step, Refund, Refundable, CancelPostings, SettlePostings, PostingsOf, Issue, Journal, Inv, Void, Inserts, Admit;
    assert Deal(w, t).shop.refunds == w.shop.refunds + [Deal(w, t).shop.refunds[|w.shop.refunds|]];
  }

  /** Any other turn changes at most the status of a row. */
  lemma SameRows(w: World, t: Turn)
    requires |Deal(w, t).shop.refunds| == |w.shop.refunds|
    ensures Deal(w, t).shop.refunds == w.shop.refunds ||
      exists n: nat :: n < |w.shop.refunds| && Deal(w, t).shop.refunds == w.shop.refunds[n := w.shop.refunds[n].(requested := false)]
  {
    hide Step, Refund, Refundable, CancelPostings, SettlePostings, PostingsOf, Issue, Journal, Void, Inserts, Admit;
  }

  /** Only the last step of a canceller adds a refund row of the booking. */
  lemma RefundIsBooked(w: World, t: Turn, b: BookingId)
    requires Inv(w) && b in w.shop.bookings
    ensures RefundsOf(Deal(w, t).shop.refunds, b) == RefundsOf(w.shop.refunds, b) ||
            (t.Run? && Canceller(w, t.i, b) && !Canceller(Deal(w, t), t.i, b) && RefundsOf(Deal(w, t).shop.refunds, b) == RefundsOf(w.shop.refunds, b) + 1)
  {
    if |Deal(w, t).shop.refunds| != |w.shop.refunds| {
      NewRefund(w, t);
      hide Deal, Inv;
      var r :| Deal(w, t).shop.refunds == w.shop.refunds + [r] && r.booking == w.processes[t.i].job.booking;
      OneMoreRefund(w.shop.refunds, r, b);
    } else {
      SameRows(w, t);
      hide Deal, Inv;
      if n: nat :| n < |w.shop.refunds| && Deal(w, t).shop.refunds == w.shop.refunds[n := w.shop.refunds[n].(requested := false)] {
        SameRefunds(w.shop.refunds, n, b);
      }
    }
  }

  lemma OneRefundStays(w: World, t: Turn, b: BookingId)
    requires Inv(w) && OneRefundLeft(w, b)
    ensures OneRefundLeft(Deal(w, t), b)
  {
    RefundIsBooked(w, t, b);
    forall i: nat ensures Canceller(Deal(w, t), i, b) ==> Canceller(w, i, b) { CancellersOnlyFinish(w, t, i, b); }
    TotalIsFixed(w, t, b);
    hide Deal, Inv, Canceller;
    if t.Run? && RefundsOf(Deal(w, t).shop.refunds, b) == RefundsOf(w.shop.refunds, b) + 1 {
      var k := t.i;
      assert Canceller(w, k, b) && !Canceller(Deal(w, t), k, b);
      forall i: nat ensures !Canceller(Deal(w, t), i, b) { assert Canceller(w, i, b) ==> i == k; }
    }
  }

  lemma {:induction false} OneRefundAlways(w: World, turns: seq<Turn>, b: BookingId)
    requires Inv(w) && OneRefundLeft(w, b)
    ensures OneRefundLeft(Play(w, turns), b)
    decreases |turns|
  {
    hide Inv, Deal, OneRefundLeft;
    if turns != [] {
      OneRefundStays(w, turns[0], b);
      DealKeeps(w, turns[0]);
      OneRefundAlways(Deal(w, turns[0]), turns[1..], b);
    }
  }

  /** The other processes and the tables of the shop are as they were. */
  predicate OnlyMoved(w: World, w2: World, i: nat) {
    && w2.shop == w.shop && |w2.processes| == |w.processes| && i < |w.processes| && w2.processes[i].job == w.processes[i].job
    && forall k :: 0 <= k < |w.processes| && k != i ==> w2.processes[k] == w.processes[k]
  }

  lemma CancellerAdmitted(w: World, i: nat, b: BookingId)
    requires Canceller(w, i, b) && w.processes[i].phase == Begin && w.shop.bookings[b].status == TICKETED
    ensures OnlyMoved(w, Advance(w, i), i) && Advance(w, i).processes[i].phase == Releasing
  {
  }

  lemma CancellerReleases(w: World, i: nat, b: BookingId)
    requires Inv(w) && Canceller(w, i, b) && w.processes[i].phase == Releasing
    ensures OnlyMoved(w, Advance(w, i), i) && Advance(w, i).processes[i].phase == Refunding
  {
    assert BookingOk(w.db, w.shop, w.freed, b) && ProcessOk(w.db, w.shop, w.freed, w.processes[i]);
    UnsellsOk(w.db, w.shop.bookings[b].hold);
    hide Step;
  }

  /** The release of a cancellation whose booking's hold exists. */
  lemma ReleaseDeal(w: World, i: nat, b: BookingId)
    requires i < |w.processes| && w.processes[i].phase == Releasing && w.processes[i].job.booking == b && b in w.shop.bookings
    requires Step(w.db, OpUnsell(w.shop.bookings[b].hold)).out == Ok
    ensures Deal(w, Run(i)) == Goto(w, i, Refunding).(db := Step(w.db, OpUnsell(w.shop.bookings[b].hold)).db, freed := w.freed + {b})
  {
    hide Step;
  }

  lemma UnsellsOk(db: Db, h: HoldId)
    requires h in db.holds
    ensures Step(db, OpUnsell(h)).out == Ok
  {
  }

  /** A canceller that saw the booking TICKETED gets to its last commit. */
  lemma ToRefunding(w: World, i: nat, b: BookingId) returns (n: nat)
    requires Inv(w) && Canceller(w, i, b) && w.shop.bookings[b].status == TICKETED
    ensures Inv(Steps(w, i, n)) && OnlyMoved(w, Steps(w, i, n), i) && Steps(w, i, n).processes[i].phase == Refunding
  {
    assert ProcessOk(w.db, w.shop, w.freed, w.processes[i]);
    hide Inv, Advance, Refundable;
    n := 0;
    assert Steps(w, i, 0) == w;
    if w.processes[i].phase == Begin {
      CancellerAdmitted(w, i, b);
      DealKeeps(w, Run(i));
      n := 1;
      assert Steps(w, i, 1) == Deal(w, Run(i));
    }
    var w1 := Steps(w, i, n);
    if w1.processes[i].phase == Releasing {
      CancellerReleases(w1, i, b);
      DealKeeps(w1, Run(i));
      n := n + 1;
      assert Steps(w, i, n) == Deal(w1, Run(i));
    }
  }

  lemma CancellerBooks(w: World, i: nat, b: BookingId)
    requires Canceller(w, i, b) && w.processes[i].phase == Refunding
    ensures var w2 := Deal(w, Run(i));
      && w2.shop.refunds == w.shop.refunds + [RowOf(w, i, b)] && |w2.processes| == |w.processes|
      && (forall k :: 0 <= k < |w.processes| && k != i ==> w2.processes[k] == w.processes[k])
      && b in w2.shop.bookings && w2.shop.bookings[b].total == w.shop.bookings[b].total
  {
    hide Refund, CancelPostings, Journal, Void;
  }

  /** Two cancellations that are both past, or can still pass, the check of the status book two refunds. */
  lemma OverlappingCancellationsRefundTwice(w: World, i: nat, j: nat, b: BookingId) returns (turns: seq<Turn>)
    requires Inv(w) && i != j && Canceller(w, i, b) && Canceller(w, j, b) && w.shop.bookings[b].status == TICKETED
    ensures forall t :: t in turns ==> t == Run(i) || t == Run(j)
    ensures Play(w, turns).shop.refunds == w.shop.refunds + [RowOf(w, i, b), RowOf(w, j, b)]
  {
    hide Inv, Deal, Refundable, Refund;
    var m := ToRefunding(w, i, b);
    var w1 := Steps(w, i, m);
    assert w1.processes[j] == w.processes[j];
    var n := ToRefunding(w1, j, b);
    var w2 := Steps(w1, j, n);
    CancellerBooks(w2, i, b);
    var w3 := Deal(w2, Run(i));
    CancellerBooks(w3, j, b);
    var a: seq<Turn>, c: seq<Turn> := seq(m, _ => Run(i)), seq(n, _ => Run(j));
    StepsPlay(w, i, m);
    StepsPlay(w1, j, n);
    PlayAppends(w, a, c);
    PlayAppends(w, a + c, [Run(i), Run(j)]);
    PlayOne(w2, [Run(i), Run(j)]);
    PlayOne(w3, [Run(j)]);
    assert [Run(i), Run(j)][1..] == [Run(j)] && [Run(j)][1..] == [];
    turns := a + c + [Run(i), Run(j)];
    assert w.shop.refunds + [RowOf(w, i, b)] + [RowOf(w, j, b)] == w.shop.refunds + [RowOf(w, i, b), RowOf(w, j, b)];
  }

  /** From any reachable state in which a booking is TICKETED and has no refund row: it is refunded at most
      once, in every run, exactly if no two cancellations of it are under way whose refund the tables
      accept. */
  lemma CancellationsRefundOnceIff(w: World, b: BookingId)
    requires Inv(w) && b in w.shop.bookings && w.shop.bookings[b].status == TICKETED && RefundsOf(w.shop.refunds, b) == 0
    ensures (forall turns: seq<Turn> :: RefundsOf(Play(w, turns).shop.refunds, b) <= 1) <==>
            (forall i: nat, j: nat :: i < j && Canceller(w, i, b) ==> !Canceller(w, j, b))
  {
    hide Inv, Deal, Canceller;
    if i: nat, j: nat :| i < j && Canceller(w, i, b) && Canceller(w, j, b) {
      var turns := OverlappingCancellationsRefundTwice(w, i, j, b);
      OneMoreRefund(w.shop.refunds, RowOf(w, i, b), b);
      OneMoreRefund(w.shop.refunds + [RowOf(w, i, b)], RowOf(w, j, b), b);
      assert w.shop.refunds + [RowOf(w, i, b)] + [RowOf(w, j, b)] == w.shop.refunds + [RowOf(w, i, b), RowOf(w, j, b)];
      assert RefundsOf(Play(w, turns).shop.refunds, b) == 2;
    } else {
      forall turns: seq<Turn> ensures RefundsOf(Play(w, turns).shop.refunds, b) <= 1 { OneRefundAlways(w, turns, b); }
    }
  }

  // ---- settling one refund twice --------------------------------------------------------------------

  function SettlementsOf(journals: seq<Entry>, n: nat): nat {
    if journals == [] then 0
    else SettlementsOf(journals[..|journals| - 1], n) + if journals[|journals| - 1].reason == SETTLED(n) then 1 else 0
  }

  lemma OneMoreEntry(journals: seq<Entry>, e: Entry, n: nat)
    ensures SettlementsOf(journals + [e], n) == SettlementsOf(journals, n) + if e.reason == SETTLED(n) then 1 else 0
  {
    assert (journals + [e])[..|journals|] == journals;
  }

  /** A refund callback that has read row `n`, or can still read it. */
  predicate Callback(w: World, i: nat, n: nat) {
    && i < |w.processes| && n < |w.shop.refunds| && w.processes[i].job.RefundCallback?
    && w.processes[i].job.booking == w.shop.refunds[n].booking
    && (w.processes[i].phase == Settling(n) || (w.processes[i].phase == Begin && w.shop.refunds[n].requested))
  }

  /** One more settlement of row `n` needs one callback fewer. */
  ghost predicate OneSettlementLeft(w: World, n: nat) {
    && n < |w.shop.refunds|
    && (SettlementsOf(w.shop.journals, n) == 0 ==> forall i: nat, j: nat :: i < j && Callback(w, i, n) ==> !Callback(w, j, n))
    && (SettlementsOf(w.shop.journals, n) != 0 ==> SettlementsOf(w.shop.journals, n) == 1 && forall i: nat :: !Callback(w, i, n))
  }

  /** A row keeps its booking and its amount, and is never requested again. */
  lemma RowsStay(w: World, t: Turn, n: nat)
    requires n < |w.shop.refunds|
    ensures n < |Deal(w, t).shop.refunds|
    ensures var r, r2 := w.shop.refunds[n], Deal(w, t).shop.refunds[n];
      r2.booking == r.booking && r2.amount == r.amount && (r2.requested ==> r.requested)
  {
    hide Step, Refundable, PostingsOf, Issue, Journal;
  }

  /** A process comes to settle row `n` only by reading it. */
  lemma OnlyReadersSettle(w: World, t: Turn, i: nat)
    requires Inv(w) && i < |w.processes| && i < |Deal(w, t).processes|
    ensures Deal(w, t).processes[i].phase == Begin ==> w.processes[i].phase == Begin
    ensures Deal(w, t).processes[i].phase.Settling? ==>
      var n := Deal(w, t).processes[i].phase.row;
      w.processes[i].phase == Settling(n) || (w.processes[i].phase == Begin && n < |w.shop.refunds| && w.shop.refunds[n].requested)
  {
    hide Step, PostingsOf, Inserts, Inv, Cancel, Finalise, SettleRow, Pay;
    RequestedIsRow(w.shop.refunds, w.processes[i].job.booking);
  }

  lemma CallbacksOnlyFinish(w: World, t: Turn, i: nat, n: nat)
    requires Inv(w) && n < |w.shop.refunds|
    ensures Callback(Deal(w, t), i, n) ==> Callback(w, i, n)
  {
    RowsStay(w, t, n);
    JobsStay(w, t, i);
    if i < |w.processes| { OnlyReadersSettle(w, t, i); }
    hide Deal, Inv;
  }

  /** A turn writes at most one journal; one that settles a row is the last commit of a process at that row. */
  lemma NewEntry(w: World, t: Turn)
    requires Inv(w) && Deal(w, t).shop.journals != w.shop.journals
    ensures t.Run? && t.i < |w.processes| && |Deal(w, t).processes| == |w.processes| && Deal(w, t).processes[t.i].phase == Done
    ensures exists e :: Deal(w, t).shop.journals == w.shop.journals + [e] && (e.reason.SETTLED? ==> w.processes[t.i].phase == Settling(e.reason.row))
  {
    hide Step, Refund, Refundable, CancelPostings, SettlePostings, PostingsOf, Issue, Journal, Inv, Void, Inserts, Admit;
    var p := w.processes[t.i];
    assert Deal(w, t).shop.journals[|w.shop.journals|].reason.SETTLED? ==>
      w.processes[t.i].phase == Settling(Deal(w, t).shop.journals[|w.shop.journals|].reason.row);
  }

  lemma SettlementIsBooked(w: World, t: Turn, n: nat)
    requires Inv(w) && n < |w.shop.refunds|
    ensures SettlementsOf(Deal(w, t).shop.journals, n) == SettlementsOf(w.shop.journals, n) ||
            (t.Run? && Callback(w, t.i, n) && !Callback(Deal(w, t), t.i, n)
             && SettlementsOf(Deal(w, t).shop.journals, n) == SettlementsOf(w.shop.journals, n) + 1)
  {
    if Deal(w, t).shop.journals != w.shop.journals {
      NewEntry(w, t);
      var e :| Deal(w, t).shop.journals == w.shop.journals + [e] && (e.reason.SETTLED? ==> w.processes[t.i].phase == Settling(e.reason.row));
      OneMoreEntry(w.shop.journals, e, n);
      assert ProcessOk(w.db, w.shop, w.freed, w.processes[t.i]);
    }
    hide Deal, Inv, BookingOk;
  }

  lemma OneSettlementStays(w: World, t: Turn, n: nat)
    requires Inv(w) && OneSettlementLeft(w, n)
    ensures OneSettlementLeft(Deal(w, t), n)
  {
    RowsStay(w, t, n);
    SettlementIsBooked(w, t, n);
    forall i: nat ensures Callback(Deal(w, t), i, n) ==> Callback(w, i, n) { CallbacksOnlyFinish(w, t, i, n); }
    hide Deal, Inv, Callback;
    if t.Run? && SettlementsOf(Deal(w, t).shop.journals, n) == SettlementsOf(w.shop.journals, n) + 1 {
      var k := t.i;
      assert Callback(w, k, n) && !Callback(Deal(w, t), k, n);
      forall i: nat ensures !Callback(Deal(w, t), i, n) { assert Callback(w, i, n) ==> i == k; }
    }
  }

  lemma {:induction false} OneSettlementAlways(w: World, turns: seq<Turn>, n: nat)
    requires Inv(w) && OneSettlementLeft(w, n)
    ensures OneSettlementLeft(Play(w, turns), n)
    decreases |turns|
  {
    hide Inv, Deal, OneSettlementLeft;
    if turns != [] {
      OneSettlementStays(w, turns[0], n);
      DealKeeps(w, turns[0]);
      OneSettlementAlways(Deal(w, turns[0]), turns[1..], n);
    }
  }

  /** A callback that can still read the row reads it. */
  lemma ReadsRow(w: World, i: nat, n: nat) returns (turns: seq<Turn>)
    requires Inv(w) && Callback(w, i, n)
    ensures var w2 := Play(w, turns); Inv(w2) && OnlyMoved(w, w2, i) && w2.processes[i].phase == Settling(n)
    ensures forall t :: t in turns ==> t == Pick(i, n)
  {
    turns := [];
    if w.processes[i].phase == Begin {
      assert w.shop.refunds[n] in w.shop.refunds && BookingOk(w.db, w.shop, w.freed, w.shop.refunds[n].booking);
      DealKeeps(w, Pick(i, n));
      turns := [Pick(i, n)];
      PlayOne(w, turns);
    }
    hide Deal, Inv;
  }

  lemma CallbackSettles(w: World, i: nat, n: nat)
    requires Inv(w) && i < |w.processes| && w.processes[i].phase == Settling(n) && n < |w.shop.refunds| && w.shop.refunds[n].amount > 0
    ensures var w2 := Deal(w, Run(i));
      && SettlementsOf(w2.shop.journals, n) == SettlementsOf(w.shop.journals, n) + 1 && |w2.processes| == |w.processes|
      && (forall k :: 0 <= k < |w.processes| && k != i ==> w2.processes[k] == w.processes[k])
      && n < |w2.shop.refunds| && w2.shop.refunds[n].amount == w.shop.refunds[n].amount && Inv(w2)
  {
    DealKeeps(w, Run(i));
    RowsStay(w, Run(i), n);
    assert w.shop.refunds[n] in w.shop.refunds && BookingOk(w.db, w.shop, w.freed, w.shop.refunds[n].booking);
    assert ProcessOk(w.db, w.shop, w.freed, w.processes[i]);
    SettlementAccepted(w.shop.refunds[n].amount);
    var e := Entry(w.shop.refunds[n].booking, SETTLED(n), Journal(SettlePostings(w.shop.refunds[n].amount)).value);
    OneMoreEntry(w.shop.journals, e, n);
    hide Inv, Journal, SettlePostings;
  }

  lemma SettlementAccepted(amount: int)
    ensures Journal(SettlePostings(amount)).Some?
    ensures Net(SettlePostings(amount), RefundPayable) == if amount > 0 then amount else 0
  {
    if amount > 0 { TwoLines(Posting(RefundPayable, DR, amount), Posting(GatewayClearing, CR, amount)); }
    JournalIff(SettlePostings(amount));
  }

  /** Two callbacks that both read the row discharge it twice. */
  lemma OverlappingCallbacksSettleTwice(w: World, i: nat, j: nat, n: nat) returns (turns: seq<Turn>)
    requires Inv(w) && i != j && Callback(w, i, n) && Callback(w, j, n) && w.shop.refunds[n].amount > 0
    ensures forall t :: t in turns ==> t in {Pick(i, n), Pick(j, n), Run(i), Run(j)}
    ensures SettlementsOf(Play(w, turns).shop.journals, n) == SettlementsOf(w.shop.journals, n) + 2
  {
    hide Inv, Deal;
    var a := ReadsRow(w, i, n);
    var w1 := Play(w, a);
    assert w1.processes[j] == w.processes[j];
    var c := ReadsRow(w1, j, n);
    var w2 := Play(w1, c);
    assert w2.processes[i] == w1.processes[i];
    CallbackSettles(w2, i, n);
    var w3 := Deal(w2, Run(i));
    CallbackSettles(w3, j, n);
    PlayAppends(w, a, c);
    PlayAppends(w, a + c, [Run(i), Run(j)]);
    PlayOne(w2, [Run(i), Run(j)]);
    PlayOne(w3, [Run(j)]);
    assert [Run(i), Run(j)][1..] == [Run(j)] && [Run(j)][1..] == [];
    turns := a + c + [Run(i), Run(j)];
  }

  /** From any reachable state with a requested refund that has no settlement: it is settled at most once,
      in every run, exactly if no two callbacks have read its row or can still read it. */
  lemma SettledOnceIff(w: World, n: nat)
    requires Inv(w) && n < |w.shop.refunds| && w.shop.refunds[n].requested && SettlementsOf(w.shop.journals, n) == 0
    ensures (forall turns: seq<Turn> :: SettlementsOf(Play(w, turns).shop.journals, n) <= 1) <==>
            (forall i: nat, j: nat :: i < j && Callback(w, i, n) ==> !Callback(w, j, n))
  {
    assert w.shop.refunds[n] in w.shop.refunds;
    assert w.shop.refunds[n].amount > 0;
    hide Inv, Deal, Callback;
    if i: nat, j: nat :| i < j && Callback(w, i, n) && Callback(w, j, n) {
      var turns := OverlappingCallbacksSettleTwice(w, i, j, n);
      assert SettlementsOf(Play(w, turns).shop.journals, n) == 2;
    } else {
      forall turns: seq<Turn> ensures SettlementsOf(Play(w, turns).shop.journals, n) <= 1 { OneSettlementAlways(w, turns, n); }
    }
  }

  // ---- account 2201 over runs ---------------------------------------------------------------------

  /** What the journals of a booking put on Refund Payable: those of its sale, and those of its refunds. */
  function SaleNet(journals: seq<Entry>, b: BookingId): int {
    if journals == [] then 0
    else SaleNet(journals[..|journals| - 1], b)
         + if journals[|journals| - 1].booking == b && journals[|journals| - 1].reason == SALE then Net(journals[|journals| - 1].lines, RefundPayable) else 0
  }

  function RefundNet(journals: seq<Entry>, b: BookingId): int {
    if journals == [] then 0
    else RefundNet(journals[..|journals| - 1], b)
         + if journals[|journals| - 1].booking == b && journals[|journals| - 1].reason != SALE then Net(journals[|journals| - 1].lines, RefundPayable) else 0
  }

  /** The amounts of its refund rows, each as often as it is not settled. */
  function Outstanding(refunds: seq<RefundRow>, journals: seq<Entry>, b: BookingId): int {
    if refunds == [] then 0
    else
      var n := |refunds| - 1;
      Outstanding(refunds[..n], journals, b) + if refunds[n].booking == b then refunds[n].amount * (1 - SettlementsOf(journals, n)) else 0
  }

  /** What a cheaper departure owes back. */
  function Cheaper(k: Booking): int { if k.instead.Some? && k.total < k.instead.value then k.instead.value - k.total else 0 }

  ghost predicate Accounted(shop: Shop, b: BookingId) {
    && RefundNet(shop.journals, b) == -Outstanding(shop.refunds, shop.journals, b)
    && (SaleNet(shop.journals, b) == 0 || (Ticketed(shop, b) && SaleNet(shop.journals, b) == -Cheaper(shop.bookings[b])))
  }

  ghost predicate Books(shop: Shop) {
    && (forall b :: Accounted(shop, b))
    && (forall e :: e in shop.journals && e.reason.SETTLED? ==> e.reason.row < |shop.refunds|)
    && (forall r :: r in shop.refunds ==> r.amount >= 0)
  }

  lemma NetsGrow(journals: seq<Entry>, e: Entry, b: BookingId)
    ensures RefundNet(journals + [e], b) == RefundNet(journals, b) + if e.booking == b && e.reason != SALE then Net(e.lines, RefundPayable) else 0
    ensures SaleNet(journals + [e], b) == SaleNet(journals, b) + if e.booking == b && e.reason == SALE then Net(e.lines, RefundPayable) else 0
  {
    assert (journals + [e])[..|journals|] == journals;
  }

  /** A journal that settles row `n`, or none. */
  lemma {:induction false} OutstandingFalls(refunds: seq<RefundRow>, refunds2: seq<RefundRow>, journals: seq<Entry>,
          e: Entry, b: BookingId)
    requires |refunds2| == |refunds|
    requires forall n :: 0 <= n < |refunds| ==> refunds2[n].booking == refunds[n].booking && refunds2[n].amount == refunds[n].amount
    ensures Outstanding(refunds2, journals + [e], b) == Outstanding(refunds, journals, b)
      - if e.reason.SETTLED? && e.reason.row < |refunds| && refunds[e.reason.row].booking == b then refunds[e.reason.row].amount else 0
  {
    if refunds != [] {
      var n := |refunds| - 1;
      OutstandingFalls(refunds[..n], refunds2[..n], journals, e, b);
      OneMoreEntry(journals, e, n);
      Expand(refunds[n].amount, SettlementsOf(journals, n));
    }
  }

  lemma Expand(a: int, s: int)
    ensures a * (1 - (s + 1)) == a * (1 - s) - a
  {
  }

  lemma {:induction false} NeverSettled(journals: seq<Entry>, n: nat)
    requires forall e :: e in journals && e.reason.SETTLED? ==> e.reason.row < n
    ensures SettlementsOf(journals, n) == 0
  {
    if journals != [] {
      assert journals[|journals| - 1] in journals;
      NeverSettled(journals[..|journals| - 1], n);
    }
  }

  lemma OutstandingGrows(refunds: seq<RefundRow>, r: RefundRow, journals: seq<Entry>, b: BookingId)
    requires forall e :: e in journals && e.reason.SETTLED? ==> e.reason.row < |refunds|
    ensures Outstanding(refunds + [r], journals, b) == Outstanding(refunds, journals, b) + if r.booking == b then r.amount else 0
  {
    assert (refunds + [r])[..|refunds|] == refunds;
    NeverSettled(journals, |refunds|);
  }

  lemma {:induction false} NoSuchLine(ps: seq<Posting>, acc: Account)
    requires forall p :: p in ps ==> p.account != acc
    ensures Net(ps, acc) == 0
  {
    if ps != [] {
      assert ps[|ps| - 1] in ps;
      NoSuchLine(ps[..|ps| - 1], acc);
    }
  }

  lemma SaleCredits(job: Job, k: Booking)
    requires Sells(job)
    ensures Net(PostingsOf(job, k), RefundPayable) == if job.Webhook? && k.instead.Some? then -Cheaper(k) else 0
  {
    if job.Webhook? && k.instead.Some? { RescheduleLines(k.instead.value, k.total); }
    else { NoSuchLine(PostingsOf(job, k), RefundPayable); }
    hide Net, ReschedulePostings;
  }

  lemma CancelCredits(total: int, pct: int)
    requires Refundable(total, pct) && Refund(total, pct) > 0
    ensures Net(Journal(CancelPostings(total, pct)).value, RefundPayable) == -Refund(total, pct)
  {
    LinesKeepTotals(CancelPostings(total, pct));
    ThreeLines(Posting(OperatorPayable, DR, OperatorRefund(total, pct)), Posting(PlatformRevenue, DR, PlatformRefund(total, pct)),
               Posting(RefundPayable, CR, Refund(total, pct)));
    hide Refund, OperatorRefund, PlatformRefund, Net, Lines;
  }

  lemma FinaliseAccounted(shop: Shop, job: Job, b: BookingId)
    requires Sells(job) && job.booking in shop.bookings && Accounted(shop, b)
    ensures Accounted(Finalise(shop, job.booking, PostingsOf(job, shop.bookings[job.booking])), b)
  {
    hide Outstanding, RefundNet, SaleNet, SettlementsOf, Net, Lines, Issue, Balanced, PostingsOf;
    var k := shop.bookings[job.booking];
    var postings := PostingsOf(job, k);
    var shop2 := Finalise(shop, job.booking, postings);
    if shop2 != shop {
      var e := Entry(job.booking, SALE, Journal(postings).value);
      LinesKeepTotals(postings);
      SaleCredits(job, k);
      NetsGrow(shop.journals, e, b);
      OutstandingFalls(shop.refunds, shop.refunds, shop.journals, e, b);
    }
  }

  lemma CancelAccounted(shop: Shop, c: BookingId, pct: int, b: BookingId)
    requires Accounted(shop, b) && forall e :: e in shop.journals && e.reason.SETTLED? ==> e.reason.row < |shop.refunds|
    ensures Accounted(Cancel(shop, c, pct), b)
  {
    if c in shop.bookings && Refundable(shop.bookings[c].total, pct) {
      var total, refund := shop.bookings[c].total, Refund(shop.bookings[c].total, pct);
      var r := RefundRow(c, refund, refund > 0);
      OutstandingGrows(shop.refunds, r, shop.journals, b);
      if refund > 0 {
        var e := Entry(c, REFUND, Journal(CancelPostings(total, pct)).value);
        CancelCredits(total, pct);
        NetsGrow(shop.journals, e, b);
        OutstandingFalls(shop.refunds + [r], shop.refunds + [r], shop.journals, e, b);
      }
      hide Net, Refund, CancelPostings, Journal, Void, Outstanding, RefundNet, SaleNet, Refundable;
    }
  }

  lemma SettleAccounted(shop: Shop, n: nat, b: BookingId)
    requires Accounted(shop, b) && forall r :: r in shop.refunds ==> r.amount >= 0
    ensures Accounted(SettleRow(shop, n), b)
  {
    hide Outstanding, RefundNet, SaleNet, SettlementsOf, Net, Lines, Balanced, SettlePostings;
    if n < |shop.refunds| && shop.refunds[n].booking in shop.bookings {
      var amount := shop.refunds[n].amount;
      assert shop.refunds[n] in shop.refunds;
      SettlementAccepted(amount);
      LinesKeepTotals(SettlePostings(amount));
      var e := Entry(shop.refunds[n].booking, SETTLED(n), Journal(SettlePostings(amount)).value);
      NetsGrow(shop.journals, e, b);
      OutstandingFalls(shop.refunds, shop.refunds[n := shop.refunds[n].(requested := false)], shop.journals, e, b);
    }
  }

  lemma RowsAndEntriesStay(w: World, t: Turn)
    requires Inv(w) && Books(w.shop)
    ensures forall e :: e in Deal(w, t).shop.journals && e.reason.SETTLED? ==> e.reason.row < |Deal(w, t).shop.refunds|
    ensures forall r :: r in Deal(w, t).shop.refunds ==> r.amount >= 0
  {
    hide Step, Refund, CancelPostings, SettlePostings, PostingsOf, Issue, Journal, Void, Accounted, Inv;
  }

  lemma NothingTicketedYet(w: World, b: BookingId)
    requires Inv(w) && b !in w.shop.bookings && Accounted(w.shop, b)
    ensures SaleNet(w.shop.journals, b) == 0
  {
  }

  lemma DealBooks(w: World, t: Turn)
    requires Inv(w) && Books(w.shop)
    ensures Books(Deal(w, t).shop)
  {
    RowsAndEntriesStay(w, t);
    forall b ensures Accounted(Deal(w, t).shop, b) { DealAccounted(w, t, b); }
    hide Deal, Inv, Accounted;
  }

  lemma DealAccounted(w: World, t: Turn, b: BookingId)
    requires Inv(w) && Books(w.shop)
    ensures Accounted(Deal(w, t).shop, b)
  {
    assert Accounted(w.shop, b);
    if t.Run? && t.i < |w.processes| && w.processes[t.i].job.booking in w.shop.bookings {
      var p := w.processes[t.i];
      assert ProcessOk(w.db, w.shop, w.freed, p);
      if p.phase == Finishing { FinaliseAccounted(w.shop, p.job, b); }
      if p.phase == Refunding { CancelAccounted(w.shop, p.job.booking, p.job.pct, b); }
      if p.phase.Settling? { SettleAccounted(w.shop, p.phase.row, b); }
    }
    hide Step, Finalise, Cancel, SettleRow, PostingsOf, Outstanding, RefundNet, SaleNet, Inv;
  }

  lemma {:induction false} PlayBooks(w: World, turns: seq<Turn>)
    requires Inv(w) && Books(w.shop)
    ensures Books(Play(w, turns).shop)
    decreases |turns|
  {
    hide Inv, Deal, Books;
    if turns != [] {
      DealBooks(w, turns[0]);
      DealKeeps(w, turns[0]);
      PlayBooks(Deal(w, turns[0]), turns[1..]);
    }
  }

  /** In every reachable state, what 2201 shows for a booking is what its refund rows still owe, each row as often
      as it is not settled, and what a reschedule to a cheaper departure credited without a row. */
  lemma RefundPayableOverRuns(db: Db, jobs: seq<Job>, turns: seq<Turn>, b: BookingId)
    ensures var shop := Play(Opening(db, jobs), turns).shop;
      && RefundNet(shop.journals, b) == -Outstanding(shop.refunds, shop.journals, b)
      && (SaleNet(shop.journals, b) == 0 || (Ticketed(shop, b) && SaleNet(shop.journals, b) == -Cheaper(shop.bookings[b])))
  {
    OpeningOk(db, jobs);
    PlayBooks(Opening(db, jobs), turns);
    hide Play, Outstanding, RefundNet, SaleNet;
    assert Accounted(Play(Opening(db, jobs), turns).shop, b);
  }

  /** Rows that are settled once, or have nothing to refund, owe nothing; a row that is settled twice beside them
      leaves 2201 on the wrong side. */
  lemma {:induction false} SettledOnceClears(refunds: seq<RefundRow>, journals: seq<Entry>, b: BookingId)
    requires forall n :: 0 <= n < |refunds| && refunds[n].booking == b ==>
               refunds[n].amount >= 0 && (refunds[n].amount > 0 ==> SettlementsOf(journals, n) >= 1)
    ensures Outstanding(refunds, journals, b) <= 0
    ensures Outstanding(refunds, journals, b) == 0 <==>
            forall n :: 0 <= n < |refunds| && refunds[n].booking == b && refunds[n].amount > 0 ==> SettlementsOf(journals, n) == 1
  {
    if refunds != [] {
      var n := |refunds| - 1;
      assert forall m :: 0 <= m < n ==> refunds[..n][m] == refunds[m];
      SettledOnceClears(refunds[..n], journals, b);
      if refunds[n].booking == b { AtMostZero(refunds[n].amount, SettlementsOf(journals, n)); }
    }
  }

  lemma AtMostZero(a: nat, s: nat)
    requires a > 0 ==> s >= 1
    ensures a * (1 - s) <= 0 && (a * (1 - s) == 0 <==> a == 0 || s == 1)
  {
    if a > 0 && s > 1 { assert a * (s - 1) > 0; }
  }

  // ---- one run --------------------------------------------------------------------------------

  predicate InFlight(p: Process, b: BookingId) { p.job.booking == b && p.phase in {Releasing, Refunding} }

  /** At most one cancellation of the booking is between its first check and its last commit. */
  predicate OneAtATime(w: World, b: BookingId) {
    forall i, j :: 0 <= i < j < |w.processes| ==> !(InFlight(w.processes[i], b) && InFlight(w.processes[j], b))
  }

  predicate NeverOverlaps(w: World, turns: seq<Turn>, b: BookingId)
    decreases |turns|
  {
    OneAtATime(w, b) && (turns != [] ==> NeverOverlaps(Deal(w, turns[0]), turns[1..], b))
  }

  ghost predicate RefundedOnce(w: World, b: BookingId) {
    && RefundsOf(w.shop.refunds, b) <= 1
    && (RefundsOf(w.shop.refunds, b) > 0 ==>
          && b in w.shop.bookings && w.shop.bookings[b].status !in {PAYMENT_PENDING, TICKETED}
          && forall i :: 0 <= i < |w.processes| ==> !InFlight(w.processes[i], b))
  }

  lemma RefundStaysSingle(w: World, i: nat, b: BookingId)
    requires RefundedOnce(w, b) && OneAtATime(w, b) && i < |w.processes| && w.processes[i].phase == Refunding
    ensures RefundedOnce(Advance(w, i), b)
  {
    hide CancelPostings, Journal, Refund, Void;
    var p := w.processes[i];
    if p.job.booking in w.shop.bookings && p.job.Cancellation? && Advance(w, i).shop != w.shop {
      var r := Advance(w, i).shop.refunds[|w.shop.refunds|];
      OneMoreRefund(w.shop.refunds, r, b);
      assert p.job.booking == b ==> InFlight(p, b);
    }
  }

  lemma SettleStaysSingle(w: World, i: nat, b: BookingId)
    requires RefundedOnce(w, b) && i < |w.processes| && w.processes[i].phase.Settling?
    ensures RefundedOnce(Advance(w, i), b)
  {
    hide SettlePostings, Journal;
    var n := w.processes[i].phase.row;
    if n < |w.shop.refunds| { SameRefunds(w.shop.refunds, n, b); }
  }

  lemma OthersStaySingle(w: World, i: nat, b: BookingId)
    requires RefundedOnce(w, b) && i < |w.processes| && w.processes[i].phase != Refunding && !w.processes[i].phase.Settling?
    ensures RefundedOnce(Advance(w, i), b)
  {
    hide Step, PostingsOf, Journal, Issue;
    RequestedIsRow(w.shop.refunds, w.processes[i].job.booking);
  }

  lemma DealStaysSingle(w: World, t: Turn, b: BookingId)
    requires RefundedOnce(w, b) && OneAtATime(w, b)
    ensures RefundedOnce(Deal(w, t), b)
  {
    hide Step, Advance;
    if t.Run? && t.i < |w.processes| {
      if w.processes[t.i].phase == Refunding { RefundStaysSingle(w, t.i, b); }
      else if w.processes[t.i].phase.Settling? { SettleStaysSingle(w, t.i, b); }
      else { OthersStaySingle(w, t.i, b); }
    }
  }

  /** A booking whose cancellations never overlap is refunded at most once, in every run. */
  lemma {:induction false} SeparateCancellationsRefundOnce(w: World, turns: seq<Turn>, b: BookingId)
    requires RefundedOnce(w, b) && NeverOverlaps(w, turns, b)
    ensures RefundedOnce(Play(w, turns), b)
    decreases |turns|
  {
    hide RefundedOnce, OneAtATime, Deal;
    if turns != [] {
      DealStaysSingle(w, turns[0], b);
      SeparateCancellationsRefundOnce(Deal(w, turns[0]), turns[1..], b);
    }
  }
}
