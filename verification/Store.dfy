/** The inventory store, statement by statement.

  Each method is one database transaction: a loop of conditional UPDATEs and INSERTs over
  mutable tables, with the tables put back on ROLLBACK. Each is proved to leave exactly the
  tables, outcome and events of its declarative meaning in `Inventory`.
 */
module StoreLoops {
  import opened Wrappers
  import opened Bits
  import opened Inventory

  /** The part of a request that a loop has worked off. */
  function Pick(ms: map<SeatNo, Mask>, nos: seq<SeatNo>): map<SeatNo, Mask> {
    map no | no in nos && no in ms :: ms[no]
  }

  lemma TouchNext(seats: map<Seat, SeatRow>, trip: TripId, ms: map<SeatNo, Mask>, mv: Move, nos: seq<SeatNo>, i: nat)
    requires i < |nos| && nos[i] in ms && nos[i] !in nos[..i]
    ensures var s := Seat(trip, nos[i]); var done := Touch(seats, trip, Pick(ms, nos[..i]), mv);
      && (s in seats ==> done[s] == seats[s])
      && (s in seats ==> Touch(seats, trip, Pick(ms, nos[..i + 1]), mv) == done[s := Apply(mv, seats[s], ms[nos[i]])])
      && (s !in seats ==> Touch(seats, trip, Pick(ms, nos[..i + 1]), mv) == done)
  {
    assert nos[..i + 1] == nos[..i] + [nos[i]];
  }

  lemma TouchNone(seats: map<Seat, SeatRow>, trip: TripId, ms: map<SeatNo, Mask>, mv: Move)
    ensures Touch(seats, trip, Pick(ms, []), mv) == seats
  {
  }

  lemma PickAll(ms: map<SeatNo, Mask>, nos: seq<SeatNo>)
    requires forall no :: no in nos <==> no in ms
    ensures Pick(ms, nos) == ms
  {
  }

  lemma BatchNext(kind: EventKind, trip: TripId, nos: seq<SeatNo>, ms: map<SeatNo, Mask>, i: nat)
    requires i < |nos| && forall no :: no in nos ==> no in ms
    ensures Batch(kind, trip, nos[..i + 1], ms) == Batch(kind, trip, nos[..i], ms) + [Event(kind, Seat(trip, nos[i]), ms[nos[i]])]
  {
  }

  predicate IsGuarded(mv: Move) { mv in {TakeHold, HoldToSold, Block, BlockToSold} }

  /** A seat moved once does not pass the guard again: a repeated seat refuses the request. */
  lemma TakenTwice(r: SeatRow, m: Mask, mv: Move)
    requires m != 0 && IsGuarded(mv)
    ensures !Ready(mv, Apply(mv, r, m), m)
  {
    var k, a := LowBit(m), Apply(mv, r, m);
    if mv in {TakeHold, Block} { assert Bit(Or(Or(a.hold, a.sold), a.blocked), k); }
    assert Bit(m, k);
  }

  /** The first `i` seats of the list are distinct, passed the guard and were moved. */
  ghost predicate MovedSoFar(before: map<Seat, SeatRow>, now: map<Seat, SeatRow>, trip: TripId, ms: map<SeatNo, Mask>,
          mv: Move, nos: seq<SeatNo>, i: nat)
    requires i <= |nos|
  {
    && Distinct(nos[..i])
    && (forall no :: no in nos[..i] ==> no in ms && Seat(trip, no) in before && Ready(mv, before[Seat(trip, no)], ms[no]))
    && now == Touch(before, trip, Pick(ms, nos[..i]), mv)
  }

  lemma NoneMoved(seats: map<Seat, SeatRow>, trip: TripId, ms: map<SeatNo, Mask>, mv: Move, nos: seq<SeatNo>)
    ensures MovedSoFar(seats, seats, trip, ms, mv, nos, 0)
  {
    TouchNone(seats, trip, ms, mv);
  }

  lemma AllMoved(before: map<Seat, SeatRow>, now: map<Seat, SeatRow>, trip: TripId, ms: map<SeatNo, Mask>, mv: Move,
          nos: seq<SeatNo>)
    requires MovedSoFar(before, now, trip, ms, mv, nos, |nos|) && forall no :: no in nos <==> no in ms
    ensures Distinct(nos) && AllReady(before, trip, ms, mv) && now == Touch(before, trip, ms, mv)
  {
    assert nos[..|nos|] == nos;
    PickAll(ms, nos);
  }

  lemma NotYetDone(nos: seq<SeatNo>, i: nat)
    requires Distinct(nos) && i < |nos|
    ensures nos[i] !in nos[..i]
  {
  }

  /** One more conditional UPDATE: a row moves on, no row refuses the whole request. */
  lemma OneMoreSeat(before: map<Seat, SeatRow>, now: map<Seat, SeatRow>, trip: TripId, ms: map<SeatNo, Mask>,
          mv: Move, nos: seq<SeatNo>, i: nat)
    requires IsGuarded(mv) && i < |nos| && MovedSoFar(before, now, trip, ms, mv, nos, i)
    requires nos[i] in ms && (ms[nos[i]] != 0 || nos[i] !in nos[..i])
    ensures var s, m := Seat(trip, nos[i]), ms[nos[i]];
      if s in now && Ready(mv, now[s], m) then
        nos[i] !in nos[..i] && MovedSoFar(before, now[s := Apply(mv, now[s], m)], trip, ms, mv, nos, i + 1)
      else !(Distinct(nos) && AllReady(before, trip, ms, mv))
  {
    var s, m := Seat(trip, nos[i]), ms[nos[i]];
    if nos[i] in nos[..i] {
      var j :| 0 <= j < i && nos[j] == nos[i];
      TakenTwice(before[s], m, mv);
    } else {
      TouchNext(before, trip, ms, mv, nos, i);
      assert nos[..i + 1] == nos[..i] + [nos[i]];
    }
  }

  // ---- sort.Strings --------------------------------------------------------------------

  predicate Sorted(s: seq<SeatNo>) { forall i, j :: 0 <= i < j < |s| ==> s[i] <= s[j] }

  lemma ConsSorted(x: SeatNo, s: seq<SeatNo>)
    requires Sorted(s) && (s != [] ==> x <= s[0])
    ensures Sorted([x] + s)
  {
  }

  function Insert(s: seq<SeatNo>, x: SeatNo): (r: seq<SeatNo>)
    requires Sorted(s)
    ensures multiset(r) == multiset(s) + multiset{x}
    ensures Sorted(r) && r != [] && (r[0] == x || (s != [] && r[0] == s[0]))
  {
    if s == [] || x <= s[0] then ConsSorted(x, s); [x] + s
    else
      assert s == [s[0]] + s[1..];
      ConsSorted(s[0], Insert(s[1..], x));
      [s[0]] + Insert(s[1..], x)
  }

  function SortSeats(s: seq<SeatNo>): (r: seq<SeatNo>)
    ensures Sorted(r) && multiset(r) == multiset(s)
  {
    if s == [] then []
    else
      var n := |s| - 1;
      assert s == s[..n] + [s[n]];
      Insert(SortSeats(s[..n]), s[n])
  }

  lemma SameSeats(s: seq<SeatNo>, r: seq<SeatNo>)
    requires multiset(r) == multiset(s)
    ensures |r| == |s| && forall no :: no in r <==> no in s
  {
    assert |multiset(s)| == |s| && |multiset(r)| == |r|;
    forall no ensures no in r <==> no in s {
      assert no in r <==> no in multiset(r);
      assert no in s <==> no in multiset(s);
    }
  }

  lemma {:induction false} DistinctCount(s: seq<SeatNo>)
    ensures Distinct(s) <==> forall no :: multiset(s)[no] <= 1
  {
    if s != [] {
      var n := |s| - 1;
      assert s == s[..n] + [s[n]];
      DistinctCount(s[..n]);
      if s[n] in s[..n] {
        assert multiset(s)[s[n]] == multiset(s[..n])[s[n]] + 1;
      } else {
        assert forall no :: multiset(s)[no] == multiset(s[..n])[no] + if no == s[n] then 1 else 0;
      }
    }
  }

  /** The sorted request is the ORDER BY of its seats, and has no repeat exactly when the request has none. */
  lemma SortedRequest(s: seq<SeatNo>)
    ensures Distinct(SortSeats(s)) <==> Distinct(s)
    ensures forall no :: no in SortSeats(s) <==> no in s
    ensures Distinct(s) ==> SortSeats(s) == InOrder(set no | no in s)
  {
    var r := SortSeats(s);
    SameSeats(s, r);
    DistinctCount(s);
    DistinctCount(r);
    if Distinct(s) {
      assert Ascending(r);
      AscendingUnique(r, InOrder(set no | no in s));
    }
  }

  lemma HasElement(s: seq<SeatNo>)
    requires s != []
    ensures exists no :: no in s
  {
    assert s[0] in s;
  }

  lemma {:induction false} AscendingUnique(a: seq<SeatNo>, b: seq<SeatNo>)
    requires Ascending(a) && Ascending(b) && forall no :: no in a <==> no in b
    ensures a == b
  {
    if a == [] {
      if b != [] { HasElement(b); }
    } else {
      assert a[|a| - 1] in b && b != [];
      assert b[|b| - 1] in a;
      var m, n := |a| - 1, |b| - 1;
      assert a[m] == b[n];
      forall no ensures no in a[..m] <==> no in b[..n] {
        assert no in a[..m] <==> no in a && no != a[m];
        assert no in b[..n] <==> no in b && no != b[n];
      }
      AscendingUnique(a[..m], b[..n]);
    }
  }

  /** A request, in the order in which the transaction works it off. */
  lemma InRequestOrder(request: seq<SeatNo>, mask: Mask)
    ensures Distinct(SortSeats(request)) <==> Distinct(request)
    ensures forall no :: no in SortSeats(request) <==> no in Each(request, mask)
    ensures Distinct(request) ==> InOrder(Each(request, mask).Keys) == SortSeats(request)
  {
    SortedRequest(request);
    assert Each(request, mask).Keys == set no | no in request;
  }

  /** AcquireHold, AllocateQuota and SellQuota in terms of the sorted list. */
  lemma AcquireInOrder(db: Db, h: HoldId, trip: TripId, request: seq<SeatNo>, board: int, drop: int, expires: int,
          ms: map<SeatNo, Mask>)
    requires SegmentMask(board, drop).Some? && request != [] && ms == Each(request, SegmentMask(board, drop).value)
    ensures forall no :: no in SortSeats(request) <==> no in ms
    ensures AcquireHold(db, h, trip, request, board, drop, expires) ==
      if !(Distinct(SortSeats(request)) && AllReady(db.seats, trip, ms, TakeHold)) then Refuse(db, ErrSeatUnavailable)
      else if h in db.holds then Refuse(db, ErrDuplicateKey)
      else Reply(Acquired(db, h, trip, ms, expires), Ok, Batch(SEAT_HELD, trip, SortSeats(request), ms))
  {
    InRequestOrder(request, SegmentMask(board, drop).value);
  }

  lemma AllocateInOrder(db: Db, c: CounterId, trip: TripId, request: seq<SeatNo>, board: int, drop: int,
          ms: map<SeatNo, Mask>)
    requires SegmentMask(board, drop).Some? && 0 < |request| <= MAX_QUOTA_SEATS && ms == Each(request, SegmentMask(board, drop).value)
    ensures forall no :: no in SortSeats(request) <==> no in ms
    ensures AllocateQuota(db, c, trip, request, board, drop) ==
      if !(Distinct(SortSeats(request)) && AllReady(db.seats, trip, ms, Block)) then Refuse(db, ErrSeatUnavailable)
      else Reply(Allocated(db, c, trip, ms), Ok, Batch(QUOTA_ALLOCATED, trip, SortSeats(request), ms))
  {
    InRequestOrder(request, SegmentMask(board, drop).value);
  }

  lemma SellInOrder(db: Db, h: HoldId, c: CounterId, trip: TripId, request: seq<SeatNo>, board: int, drop: int,
          now: int, ms: map<SeatNo, Mask>)
    requires SegmentMask(board, drop).Some? && request != [] && ms == Each(request, SegmentMask(board, drop).value)
    ensures forall no :: no in SortSeats(request) <==> no in ms
    ensures SellQuota(db, h, c, trip, request, board, drop, now) ==
      if h in db.holds then Refuse(db, ErrDuplicateKey)
      else if !(Distinct(SortSeats(request)) && Owned(db, c, trip, ms) && AllReady(db.seats, trip, ms, BlockToSold)) then Refuse(db, ErrNotInQuota)
      else Reply(QuotaSale(db, h, c, trip, ms, now), Ok, Batch(SEAT_BOOKED, trip, SortSeats(request), ms))
  {
    InRequestOrder(request, SegmentMask(board, drop).value);
  }

  /** The quota rows of `nos` have the new status, all others the old one. */
  ghost predicate QuotaIs(before: map<QuotaKey, QuotaStatus>, now: map<QuotaKey, QuotaStatus>, c: CounterId,
          trip: TripId, nos: seq<SeatNo>, mask: Mask, status: QuotaStatus) {
    && (forall q :: q in now <==> q in before || (q.no in nos && q == QuotaKey(c, trip, q.no, mask)))
    && (forall q :: q in now ==> now[q] == if q.no in nos && q == QuotaKey(c, trip, q.no, mask) then status else before[q])
  }

  lemma QuotaWritten(before: map<QuotaKey, QuotaStatus>, now: map<QuotaKey, QuotaStatus>, c: CounterId, trip: TripId,
          nos: seq<SeatNo>, ms: map<SeatNo, Mask>, mask: Mask, status: QuotaStatus)
    requires QuotaIs(before, now, c, trip, nos, mask, status)
    requires forall no :: no in nos <==> no in ms
    requires forall no :: no in ms ==> ms[no] == mask
    ensures now == before + QuotaRows(c, trip, ms, status)
  {
  }

  lemma QuotaNext(before: map<QuotaKey, QuotaStatus>, now: map<QuotaKey, QuotaStatus>, c: CounterId, trip: TripId,
          nos: seq<SeatNo>, mask: Mask, status: QuotaStatus, no: SeatNo)
    requires QuotaIs(before, now, c, trip, nos, mask, status)
    ensures QuotaIs(before, now[QuotaKey(c, trip, no, mask) := status], c, trip, nos + [no], mask, status)
  {
  }

  lemma ItemsNext(before: map<ItemKey, ItemRow>, now: map<ItemKey, ItemRow>, h: HoldId, trip: TripId,
          nos: seq<SeatNo>, ms: map<SeatNo, Mask>, no: SeatNo)
    requires no in ms && (forall n :: n in nos ==> n in ms) && ItemsAre(before, now, h, trip, nos, ms)
    ensures ItemsAre(before, now[ItemKey(h, no) := ItemRow(trip, ms[no])], h, trip, nos + [no], ms)
  {
  }

  lemma FreshNext(seats: map<Seat, SeatRow>, trip: TripId, segments: nat, specs: seq<SeatSpec>, i: nat)
    requires i < |specs|
    ensures FreshSeats(seats, trip, specs[..i + 1]) <==>
      FreshSeats(seats, trip, specs[..i]) && Seat(trip, specs[i].no) !in WithSeats(seats, trip, segments, specs[..i])
  {
    hide FreshSeats, WithSeats;
    NewSeats(seats, trip, segments, specs[..i]);
    FreshUnfold(seats, trip, specs[..i + 1]);
    assert specs[..i + 1][..i] == specs[..i];
    assert forall j :: 0 <= j < i ==> specs[..i + 1][j] == specs[..i][j];
  }

  lemma FreshUnfold(seats: map<Seat, SeatRow>, trip: TripId, specs: seq<SeatSpec>)
    requires specs != []
    ensures var n := |specs| - 1;
      FreshSeats(seats, trip, specs) <==>
        && FreshSeats(seats, trip, specs[..n])
        && !(Seat(trip, specs[n].no) in seats || exists j :: 0 <= j < n && specs[j].no == specs[n].no)
  {
  }

  lemma InsertNext(seats: map<Seat, SeatRow>, trip: TripId, segments: nat, specs: seq<SeatSpec>, i: nat)
    requires i < |specs|
    ensures WithSeats(seats, trip, segments, specs[..i + 1]) == var now, s := WithSeats(seats, trip, segments, specs[..i]), Seat(trip, specs[i].no);
      if s in now then now else now[s := NewRow(specs[i], segments)]
  {
    assert specs[..i + 1][..i] == specs[..i];
  }

  lemma {:induction false} FreshPrefix(seats: map<Seat, SeatRow>, trip: TripId, specs: seq<SeatSpec>, i: nat)
    requires i <= |specs| && FreshSeats(seats, trip, specs)
    ensures FreshSeats(seats, trip, specs[..i])
  {
    var n := |specs| - 1;
    if i == |specs| {
      assert specs[..i] == specs;
    } else {
      FreshPrefix(seats, trip, specs[..n], i);
      assert specs[..n][..i] == specs[..i];
    }
  }

  /** The hold items of `nos` are written, all others are as before. */
  ghost predicate ItemsAre(before: map<ItemKey, ItemRow>, now: map<ItemKey, ItemRow>, h: HoldId, trip: TripId,
          nos: seq<SeatNo>, ms: map<SeatNo, Mask>)
    requires forall no :: no in nos ==> no in ms
  {
    && (forall i :: i in now <==> i in before || (i.hold == h && i.no in nos))
    && (forall i :: i in now ==> now[i] == if i.hold == h && i.no in nos then ItemRow(trip, ms[i.no]) else before[i])
  }

  function UnblockOne(seats: map<Seat, SeatRow>, s: Seat, mask: Mask): map<Seat, SeatRow> {
    if s in seats then seats[s := Apply(Unblock, seats[s], mask)] else seats
  }

  lemma ReturnNext(seats: map<Seat, SeatRow>, trip: TripId, back: seq<SeatNo>, no: SeatNo, mask: Mask)
    requires no !in back
    ensures Touch(seats, trip, Each(back + [no], mask), Unblock)
         == UnblockOne(Touch(seats, trip, Each(back, mask), Unblock), Seat(trip, no), mask)
    ensures Batch(QUOTA_RELEASED, trip, back + [no], Each(back + [no], mask))
         == Batch(QUOTA_RELEASED, trip, back, Each(back, mask)) + [Event(QUOTA_RELEASED, Seat(trip, no), mask)]
  {
  }

  lemma ReturnableNext(db: Db, c: CounterId, trip: TripId, request: seq<SeatNo>, mask: Mask, i: nat)
    requires i < |request|
    ensures Returnable(db, c, trip, request[..i + 1], mask) == var r := Returnable(db, c, trip, request[..i], mask);
      if InQuota(db, QuotaKey(c, trip, request[i], mask)) && request[i] !in r then r + [request[i]] else r
  {
    assert request[..i + 1][..i] == request[..i];
  }

  /** AllocateQuota after `i` seats. */
  ghost predicate BlockedSoFar(before: Db, now: Db, c: CounterId, trip: TripId, nos: seq<SeatNo>,
          ms: map<SeatNo, Mask>, mask: Mask, i: nat)
    requires i <= |nos|
  {
    && MovedSoFar(before.seats, now.seats, trip, ms, Block, nos, i)
    && QuotaIs(before.quota, now.quota, c, trip, nos[..i], mask, QuotaAllocated)
  }

  lemma OneMoreBlock(before: Db, now: Db, c: CounterId, trip: TripId, nos: seq<SeatNo>, ms: map<SeatNo, Mask>,
          mask: Mask, i: nat)
    requires i < |nos| && nos[i] in ms && ms[nos[i]] == mask != 0 && BlockedSoFar(before, now, c, trip, nos, ms, mask, i)
    ensures var s := Seat(trip, nos[i]);
      if s in now.seats && Ready(Block, now.seats[s], mask) then
        BlockedSoFar(before, now.(seats := now.seats[s := Apply(Block, now.seats[s], mask)],
                                  quota := now.quota[QuotaKey(c, trip, nos[i], mask) := QuotaAllocated]), c, trip, nos, ms, mask, i + 1)
      else !(Distinct(nos) && AllReady(before.seats, trip, ms, Block))
  {
    OneMoreSeat(before.seats, now.seats, trip, ms, Block, nos, i);
    QuotaNext(before.quota, now.quota, c, trip, nos[..i], mask, QuotaAllocated, nos[i]);
    assert nos[..i + 1] == nos[..i] + [nos[i]];
  }

  lemma BlocksNothing(db: Db, c: CounterId, trip: TripId, nos: seq<SeatNo>, ms: map<SeatNo, Mask>, mask: Mask)
    ensures BlockedSoFar(db, db, c, trip, nos, ms, mask, 0)
  {
    TouchNone(db.seats, trip, ms, Block);
  }

  lemma AllBlocked(before: Db, now: Db, c: CounterId, trip: TripId, nos: seq<SeatNo>, ms: map<SeatNo, Mask>, mask: Mask)
    requires BlockedSoFar(before, now, c, trip, nos, ms, mask, |nos|)
    requires forall no :: no in nos <==> no in ms
    requires forall no :: no in ms ==> ms[no] == mask
    ensures Distinct(nos) && AllReady(before.seats, trip, ms, Block)
    ensures now.seats == Touch(before.seats, trip, ms, Block)
    ensures now.quota == before.quota + QuotaRows(c, trip, ms, QuotaAllocated)
  {
    assert nos[..|nos|] == nos;
    AllMoved(before.seats, now.seats, trip, ms, Block, nos);
    QuotaWritten(before.quota, now.quota, c, trip, nos, ms, mask, QuotaAllocated);
  }

  /** SellQuota after `i` seats. */
  ghost predicate QuotaSoldSoFar(before: Db, now: Db, h: HoldId, c: CounterId, trip: TripId, nos: seq<SeatNo>,
          ms: map<SeatNo, Mask>, mask: Mask, i: nat)
    requires i <= |nos|
  {
    && MovedSoFar(before.seats, now.seats, trip, ms, BlockToSold, nos, i)
    && QuotaIs(before.quota, now.quota, c, trip, nos[..i], mask, QuotaSold)
    && (forall no :: no in nos[..i] ==> InQuota(before, QuotaKey(c, trip, no, mask)))
    && ItemsAre(before.items, now.items, h, trip, nos[..i], ms)
  }

  lemma SellsNothing(db: Db, h: HoldId, c: CounterId, trip: TripId, nos: seq<SeatNo>, ms: map<SeatNo, Mask>, mask: Mask)
    ensures QuotaSoldSoFar(db, db, h, c, trip, nos, ms, mask, 0)
  {
    TouchNone(db.seats, trip, ms, BlockToSold);
  }

  lemma OneMoreSale(before: Db, now: Db, h: HoldId, c: CounterId, trip: TripId, nos: seq<SeatNo>,
          ms: map<SeatNo, Mask>, mask: Mask, i: nat)
    requires i < |nos| && (forall no :: no in nos ==> no in ms && ms[no] == mask) && mask != 0
    requires QuotaSoldSoFar(before, now, h, c, trip, nos, ms, mask, i)
    ensures var s, key := Seat(trip, nos[i]), QuotaKey(c, trip, nos[i], mask);
      if InQuota(now, key) && s in now.seats && Ready(BlockToSold, now.seats[s], mask) then
        QuotaSoldSoFar(before, now.(seats := now.seats[s := Apply(BlockToSold, now.seats[s], mask)], quota := now.quota[key := QuotaSold],
                                    items := now.items[ItemKey(h, nos[i]) := ItemRow(trip, mask)]), h, c, trip, nos, ms, mask, i + 1)
      else !(Distinct(nos) && Owned(before, c, trip, ms) && AllReady(before.seats, trip, ms, BlockToSold))
  {
    OneMoreSeat(before.seats, now.seats, trip, ms, BlockToSold, nos, i);
    QuotaNext(before.quota, now.quota, c, trip, nos[..i], mask, QuotaSold, nos[i]);
    ItemsNext(before.items, now.items, h, trip, nos[..i], ms, nos[i]);
    assert nos[..i + 1] == nos[..i] + [nos[i]];
  }

  /** ReleaseQuota after the seats of `back` were returned. */
  ghost predicate ReturnedSoFar(before: Db, now: Db, c: CounterId, trip: TripId, back: seq<SeatNo>, mask: Mask) {
    && now.seats == Touch(before.seats, trip, Each(back, mask), Unblock)
    && QuotaIs(before.quota, now.quota, c, trip, back, mask, QuotaReleased)
  }

  lemma ReturnsNothing(db: Db, c: CounterId, trip: TripId, mask: Mask) returns (back: seq<SeatNo>)
    ensures back == [] == Returnable(db, c, trip, [], mask) && ReturnedSoFar(db, db, c, trip, back, mask)
  {
    back := [];
  }

  lemma OneMoreReturn(before: Db, now: Db, c: CounterId, trip: TripId, request: seq<SeatNo>, mask: Mask, i: nat)
    requires i < |request| && ReturnedSoFar(before, now, c, trip, Returnable(before, c, trip, request[..i], mask), mask)
    ensures var back := Returnable(before, c, trip, request[..i], mask); var no := request[i]; var key := QuotaKey(c, trip, no, mask);
      if InQuota(now, key) then
        && Returnable(before, c, trip, request[..i + 1], mask) == back + [no]
        && ReturnedSoFar(before, now.(seats := UnblockOne(now.seats, Seat(trip, no), mask), quota := now.quota[key := QuotaReleased]), c, trip, back + [no], mask)
        && Batch(QUOTA_RELEASED, trip, back + [no], Each(back + [no], mask))
           == Batch(QUOTA_RELEASED, trip, back, Each(back, mask)) + [Event(QUOTA_RELEASED, Seat(trip, no), mask)]
      else Returnable(before, c, trip, request[..i + 1], mask) == back
  {
    var back := Returnable(before, c, trip, request[..i], mask);
    ReturnableNext(before, c, trip, request, mask, i);
    if InQuota(now, QuotaKey(c, trip, request[i], mask)) {
      ReturnNext(before.seats, trip, back, request[i], mask);
      QuotaNext(before.quota, now.quota, c, trip, back, mask, QuotaReleased, request[i]);
    }
  }

  lemma AllSold(before: Db, now: Db, h: HoldId, c: CounterId, trip: TripId, nos: seq<SeatNo>, ms: map<SeatNo, Mask>,
          mask: Mask)
    requires QuotaSoldSoFar(before, now, h, c, trip, nos, ms, mask, |nos|)
    requires forall no :: no in nos <==> no in ms
    requires forall no :: no in ms ==> ms[no] == mask
    ensures Distinct(nos) && Owned(before, c, trip, ms) && AllReady(before.seats, trip, ms, BlockToSold)
    ensures now.seats == Touch(before.seats, trip, ms, BlockToSold)
    ensures now.quota == before.quota + QuotaRows(c, trip, ms, QuotaSold)
    ensures now.items == before.items + NewItems(h, trip, ms)
  {
    assert nos[..|nos|] == nos;
    AllMoved(before.seats, now.seats, trip, ms, BlockToSold, nos);
    QuotaWritten(before.quota, now.quota, c, trip, nos, ms, mask, QuotaSold);
    ItemsWritten(before.items, now.items, h, trip, nos, ms);
  }

  datatype SeatState = SeatState(available: bool, sold: bool, held: bool, blocked: bool)

  function StateOf(r: SeatRow, m: Mask): SeatState {
    var sold, held, blocked := And(r.sold, m) != 0, And(r.hold, m) != 0, And(r.blocked, m) != 0;
    SeatState(!sold && !held && !blocked, sold, held, blocked)
  }

  datatype SeatEntry = SeatEntry(no: SeatNo, state: SeatState)

  function Numbers(entries: seq<SeatEntry>): (nos: seq<SeatNo>)
    ensures |nos| == |entries| && forall i :: 0 <= i < |nos| ==> nos[i] == entries[i].no
  {
    seq(|entries|, i requires 0 <= i < |entries| => entries[i].no)
  }

  /** The flags, segment by segment: sold if some requested segment is sold, and so on; available if
      every one is free of all three. */
  ghost predicate Tells(r: SeatRow, m: Mask, state: SeatState) {
    && (state.sold <==> exists k: nat :: Bit(m, k) && Bit(r.sold, k))
    && (state.held <==> exists k: nat :: Bit(m, k) && Bit(r.hold, k))
    && (state.blocked <==> exists k: nat :: Bit(m, k) && Bit(r.blocked, k))
    && (state.available <==> forall k: nat :: Bit(m, k) ==> !Bit(r.sold, k) && !Bit(r.hold, k) && !Bit(r.blocked, k))
  }

  /** SeatMap tests the three masks one by one, AcquireHold tests their union. */
  lemma StateTells(r: SeatRow, m: Mask)
    ensures Tells(r, m, StateOf(r, m)) && (StateOf(r, m).available <==> Free(r, m))
  {
    assert Disjoint(r.sold, m) <==> And(r.sold, m) == 0;
    assert Disjoint(r.hold, m) <==> And(r.hold, m) == 0;
    assert Disjoint(r.blocked, m) <==> And(r.blocked, m) == 0;
  }

  lemma EntryTells(db: Db, trip: TripId, no: SeatNo, m: Mask)
    requires Seat(trip, no) in db.seats
    ensures Tells(db.seats[Seat(trip, no)], m, StateOf(db.seats[Seat(trip, no)], m))
    ensures StateOf(db.seats[Seat(trip, no)], m).available <==> no in FreeFor(db, trip, m)
  {
    StateTells(db.seats[Seat(trip, no)], m);
    hide StateOf, Tells, Free;
    if Free(db.seats[Seat(trip, no)], m) { assert Seat(trip, no).no in FreeFor(db, trip, m); }
  }

  lemma SweepNext(db: Db, dues: seq<HoldId>, i: nat)
    requires i < |dues| && forall h :: h in dues ==> h in db.holds
    ensures var first := Sweep(db, dues[..i]); var last := ReleaseBits(first.db, dues[i], true);
      Sweep(db, dues[..i + 1]) == Reply(last.db, Ok, first.log + last.log)
  {
    assert dues[..i + 1][..i] == dues[..i];
  }

  lemma SweepHoldsAll(db: Db, dues: seq<HoldId>)
    requires forall d :: d in dues ==> d in db.holds
    ensures forall h :: h in db.holds ==> Sweep(db, dues).db.holds[h] == if h in dues then db.holds[h].(status := EXPIRED) else db.holds[h]
  {
    hide Sweep;
    forall h | h in db.holds ensures Sweep(db, dues).db.holds[h] == if h in dues then db.holds[h].(status := EXPIRED) else db.holds[h] {
      SweepHolds(db, dues, h);
    }
  }

  lemma SweptNone(db: Db)
    ensures Sweep(db, []) == Refuse(db, Ok)
  {
  }

  lemma ItemsWritten(before: map<ItemKey, ItemRow>, now: map<ItemKey, ItemRow>, h: HoldId, trip: TripId,
          nos: seq<SeatNo>, ms: map<SeatNo, Mask>)
    requires (forall no :: no in nos <==> no in ms) && ItemsAre(before, now, h, trip, nos, ms)
    ensures now == before + NewItems(h, trip, ms)
  {
  }
}

module InventoryStore {
  import opened Wrappers
  import opened Bits
  import opened Inventory
  import opened StoreLoops

  class Store {
    var trips: map<TripId, nat>
    var seats: map<Seat, SeatRow>
    var holds: map<HoldId, HoldRow>
    var items: map<ItemKey, ItemRow>
    var quota: map<QuotaKey, QuotaStatus>
    var events: seq<Event>

    /** deck, row_idx and col_idx of a seat, read as one number. */
    const place: Seat -> int

    function Tables(): Db
      reads this
    {
      Db(trips, seats, holds, items, quota)
    }

    /** The tables and the log after a transaction that is meant to reply `r`. */
    ghost predicate Shows(r: Reply, log: seq<Event>)
      reads this
    {
      Tables() == r.db && events == log + r.log
    }

    constructor (place: Seat -> int)
      ensures Tables() == EMPTY && events == [] && this.place == place
    {
      this.place := place;
      trips, seats, holds, items, quota, events := map[], map[], map[], map[], map[], [];
    }

    /** UPDATE trip_seats SET ... WHERE trip_id and seat_no and the guard of the move. */
    method UpdateSeat(s: Seat, m: Mask, mv: Move) returns (rows: nat)
      modifies this`seats
      ensures if s in old(seats) && Ready(mv, old(seats)[s], m)
              then rows == 1 && seats == old(seats)[s := Apply(mv, old(seats)[s], m)]
              else rows == 0 && seats == old(seats)
    {
      if s in seats && Ready(mv, seats[s], m) {
        seats := seats[s := Apply(mv, seats[s], m)];
        return 1;
      }
      return 0;
    }

    /** ROLLBACK. */
    method Rollback(saved: Db, log: seq<Event>)
      modifies this
      ensures Tables() == saved && events == log
    {
      trips, seats, holds, items, quota, events := saved.trips, saved.seats, saved.holds, saved.items, saved.quota, log;
    }

    /** One conditional UPDATE per seat, in the given order, until one finds no row. */
    method MoveSeats(trip: TripId, nos: seq<SeatNo>, ms: map<SeatNo, Mask>, mv: Move) returns (ok: bool)
      requires IsGuarded(mv) && (forall no :: no in nos <==> no in ms) && forall no :: no in ms ==> ms[no] != 0
      modifies this`seats
      ensures ok <==> Distinct(nos) && AllReady(old(seats), trip, ms, mv)
      ensures ok ==> seats == Touch(old(seats), trip, ms, mv)
    {
      NoneMoved(seats, trip, ms, mv, nos);
      hide MovedSoFar, Distinct, AllReady, Touch;
      for i := 0 to |nos|
        invariant MovedSoFar(old(seats), seats, trip, ms, mv, nos, i)
      {
        OneMoreSeat(old(seats), seats, trip, ms, mv, nos, i);
        var rows := UpdateSeat(Seat(trip, nos[i]), ms[nos[i]], mv);
        if rows != 1 { return false; }
      }
      AllMoved(old(seats), seats, trip, ms, mv, nos);
      return true;
    }

    /** seat_hold_items and inventory_events rows, one of each per seat. */
    method InsertItems(h: HoldId, trip: TripId, nos: seq<SeatNo>, ms: map<SeatNo, Mask>, kind: EventKind)
      requires forall no :: no in nos <==> no in ms
      modifies this`items, this`events
      ensures items == old(items) + NewItems(h, trip, ms)
      ensures events == old(events) + Batch(kind, trip, nos, ms)
    {
      for i := 0 to |nos|
        invariant ItemsAre(old(items), items, h, trip, nos[..i], ms)
        invariant events == old(events) + Batch(kind, trip, nos[..i], ms)
      {
        BatchNext(kind, trip, nos, ms, i);
        assert nos[..i + 1] == nos[..i] + [nos[i]];
        items := items[ItemKey(h, nos[i]) := ItemRow(trip, ms[nos[i]])];
        events := events + [Event(kind, Seat(trip, nos[i]), ms[nos[i]])];
      }
      assert nos[..|nos|] == nos;
      ItemsWritten(old(items), items, h, trip, nos, ms);
    }

    // ---- AcquireHold -------------------------------------------------------------------

    /** The transaction of AcquireHold. */
    method HoldSeats(h: HoldId, trip: TripId, nos: seq<SeatNo>, ms: map<SeatNo, Mask>, expires: int)
      returns (out: Outcome)
      requires (forall no :: no in nos <==> no in ms) && forall no :: no in ms ==> ms[no] != 0
      modifies this
      ensures out == if !(Distinct(nos) && AllReady(old(seats), trip, ms, TakeHold)) then ErrSeatUnavailable
                     else if h in old(holds) then ErrDuplicateKey else Ok
      ensures Tables() == if out == Ok then Acquired(old(Tables()), h, trip, ms, expires) else old(Tables())
      ensures events == old(events) + if out == Ok then Batch(SEAT_HELD, trip, nos, ms) else []
    {
      hide AllReady, Touch, NewItems, Batch, Distinct;
      var saved, log := Tables(), events;
      var ok := MoveSeats(trip, nos, ms, TakeHold);
      if !ok { Rollback(saved, log); return ErrSeatUnavailable; }
      if h in holds { Rollback(saved, log); return ErrDuplicateKey; }
      holds := holds[h := HoldRow(trip, HELD, expires)];
      InsertItems(h, trip, nos, ms, SEAT_HELD);
      return Ok;
    }

    method AcquireHold(h: HoldId, trip: TripId, request: seq<SeatNo>, board: int, drop: int, expires: int)
      returns (out: Outcome)
      modifies this
      ensures out == Inventory.AcquireHold(old(Tables()), h, trip, request, board, drop, expires).out
      ensures Shows(Inventory.AcquireHold(old(Tables()), h, trip, request, board, drop, expires), old(events))
    {
      var sm := SegmentMask(board, drop);
      if sm == None { return ErrBadSegments; }
      if request == [] { return ErrNoSeats; }
      var ms := Each(request, sm.value);
      JourneyNotEmpty(board, drop);
      AcquireInOrder(Tables(), h, trip, request, board, drop, expires, ms);
      out := HoldSeats(h, trip, SortSeats(request), ms, expires);
    }

    // ---- settling a hold ------------------------------------------------------------------

    /** The loop of ConfirmHold: a guarded UPDATE and an event per item. */
    method SellItems(trip: TripId, nos: seq<SeatNo>, ms: map<SeatNo, Mask>) returns (ok: bool)
      requires Distinct(nos) && forall no :: no in nos <==> no in ms
      modifies this`seats, this`events
      ensures ok <==> AllReady(old(seats), trip, ms, HoldToSold)
      ensures ok ==> seats == Touch(old(seats), trip, ms, HoldToSold) && events == old(events) + Batch(SEAT_BOOKED, trip, nos, ms)
    {
      NoneMoved(seats, trip, ms, HoldToSold, nos);
      hide MovedSoFar, Distinct, AllReady, Touch;
      for i := 0 to |nos|
        invariant MovedSoFar(old(seats), seats, trip, ms, HoldToSold, nos, i)
        invariant events == old(events) + Batch(SEAT_BOOKED, trip, nos[..i], ms)
      {
        NotYetDone(nos, i);
        OneMoreSeat(old(seats), seats, trip, ms, HoldToSold, nos, i);
        BatchNext(SEAT_BOOKED, trip, nos, ms, i);
        var rows := UpdateSeat(Seat(trip, nos[i]), ms[nos[i]], HoldToSold);
        if rows != 1 { return false; }
        events := events + [Event(SEAT_BOOKED, Seat(trip, nos[i]), ms[nos[i]])];
      }
      assert nos[..|nos|] == nos;
      AllMoved(old(seats), seats, trip, ms, HoldToSold, nos);
      return true;
    }

    /** The loops of releaseBits and ReleaseConfirmed: nothing looks at the rowcount. */
    method FreeItems(trip: TripId, nos: seq<SeatNo>, ms: map<SeatNo, Mask>, mv: Move, kind: EventKind)
      requires mv in {DropHold, Unsell} && Distinct(nos) && forall no :: no in nos <==> no in ms
      modifies this`seats, this`events
      ensures seats == Touch(old(seats), trip, ms, mv) && events == old(events) + Batch(kind, trip, nos, ms)
    {
      TouchNone(seats, trip, ms, mv);
      for i := 0 to |nos|
        invariant seats == Touch(old(seats), trip, Pick(ms, nos[..i]), mv)
        invariant events == old(events) + Batch(kind, trip, nos[..i], ms)
      {
        TouchNext(old(seats), trip, ms, mv, nos, i);
        BatchNext(kind, trip, nos, ms, i);
        var rows := UpdateSeat(Seat(trip, nos[i]), ms[nos[i]], mv);
        events := events + [Event(kind, Seat(trip, nos[i]), ms[nos[i]])];
      }
      assert nos[..|nos|] == nos;
      PickAll(ms, nos);
    }

    /** ConfirmHold for a HELD hold. */
    method SellHold(h: HoldId) returns (ok: bool)
      requires h in holds
      modifies this
      ensures ok <==> AllReady(old(seats), old(holds)[h].trip, ItemsOf(old(Tables()), h), HoldToSold)
      ensures ok ==> Tables() == Settle(old(Tables()), h, HoldToSold, CONFIRMED)
      ensures ok ==> events == old(events) + SeatEvents(SEAT_BOOKED, old(holds)[h].trip, ItemsOf(old(Tables()), h))
      ensures !ok ==> Tables() == old(Tables()) && events == old(events)
    {
      var saved, log, trip, ms := Tables(), events, holds[h].trip, ItemsOf(Tables(), h);
      ok := SellItems(trip, InOrder(ms.Keys), ms);
      if !ok { Rollback(saved, log); return; }
      holds := holds[h := holds[h].(status := CONFIRMED)];
    }

    method ConfirmHold(h: HoldId) returns (out: Outcome)
      modifies this
      ensures out == Inventory.ConfirmHold(old(Tables()), h).out
      ensures Shows(Inventory.ConfirmHold(old(Tables()), h), old(events))
    {
      if h !in holds { return ErrHoldNotFound; }
      match holds[h].status
      case CONFIRMED => return Ok;
      case HELD =>
        var ok := SellHold(h);
        return if ok then Ok else ErrHoldLost;
      case _ => return ErrHoldNotActive;
    }

    method ReleaseHold(h: HoldId, expired: bool) returns (out: Outcome)
      modifies this
      ensures out == Inventory.ReleaseHold(old(Tables()), h, expired).out
      ensures Shows(Inventory.ReleaseHold(old(Tables()), h, expired), old(events))
    {
      if h !in holds { return ErrHoldNotFound; }
      if holds[h].status != HELD { return Ok; }
      ReleaseBits(h, expired);
      return Ok;
    }

    method ReleaseBits(h: HoldId, expired: bool)
      requires h in holds
      modifies this
      ensures Shows(Inventory.ReleaseBits(old(Tables()), h, expired), old(events))
    {
      var trip, ms := holds[h].trip, ItemsOf(Tables(), h);
      FreeItems(trip, InOrder(ms.Keys), ms, DropHold, if expired then HOLD_EXPIRED else SEAT_RELEASED);
      holds := holds[h := holds[h].(status := if expired then EXPIRED else RELEASED)];
    }

    method ReleaseConfirmed(h: HoldId) returns (out: Outcome)
      modifies this
      ensures out == Inventory.ReleaseConfirmed(old(Tables()), h).out
      ensures Shows(Inventory.ReleaseConfirmed(old(Tables()), h), old(events))
    {
      if h !in holds { return ErrHoldNotFound; }
      if holds[h].status != CONFIRMED { return Ok; }
      var trip, ms := holds[h].trip, ItemsOf(Tables(), h);
      FreeItems(trip, InOrder(ms.Keys), ms, Unsell, SEAT_RELEASED);
      holds := holds[h := holds[h].(status := RELEASED)];
      return Ok;
    }

    // ---- SweepExpired -----------------------------------------------------------------

    function Deadline(h: HoldId): int
      reads this
    {
      if h in holds then holds[h].expires else 0
    }

    /** SELECT ... WHERE status = 'HELD' AND expires_at < now() ORDER BY expires_at LIMIT FOR UPDATE SKIP LOCKED. */
    method SelectDue(now: int, limit: nat, locked: set<HoldId>) returns (dues: seq<HoldId>)
      ensures Sweepable(Tables(), dues, now) && Distinct(dues) && |dues| <= limit
      ensures forall h :: h in dues ==> h in holds && holds[h].status == HELD && holds[h].expires < now && h !in locked
      ensures forall i, j :: 0 <= i < j < |dues| ==> Deadline(dues[i]) <= Deadline(dues[j])
      ensures forall h :: h in holds && holds[h].status == HELD && holds[h].expires < now && h !in locked && h !in dues ==>
        |dues| == limit && forall d :: d in dues ==> holds[d].expires <= holds[h].expires
    {
      dues := [];
      var rest := set h | h in holds && Due(Tables(), h, now) && h !in locked;
      while |dues| < limit && rest != {}
        invariant forall h :: h in rest <==> Due(Tables(), h, now) && h !in locked && h !in dues
        invariant Sweepable(Tables(), dues, now) && |dues| <= limit && forall h :: h in dues ==> h !in locked
        invariant forall i, j :: 0 <= i < j < |dues| ==> Deadline(dues[i]) <= Deadline(dues[j])
        invariant forall h, d :: h in rest && d in dues ==> Deadline(d) <= Deadline(h)
        decreases rest
      {
        var next := Earliest(rest);
        dues, rest := dues + [next], rest - {next};
      }
    }

    method Earliest(hs: set<HoldId>) returns (first: HoldId)
      requires hs != {} && hs <= holds.Keys
      ensures first in hs && forall h :: h in hs ==> Deadline(first) <= Deadline(h)
    {
      first :| first in hs;
      var rest := hs - {first};
      while rest != {}
        invariant rest <= hs && first in hs
        invariant forall h :: h in hs - rest ==> Deadline(first) <= Deadline(h)
        decreases rest
      {
        var h :| h in rest;
        if Deadline(h) < Deadline(first) { first := h; }
        rest := rest - {h};
      }
    }

    method SweepDues(dues: seq<HoldId>)
      requires forall h :: h in dues ==> h in holds
      modifies this
      ensures Shows(Sweep(old(Tables()), dues), old(events))
    {
      hide Sweep, Inventory.ReleaseBits;
      SweptNone(Tables());
      ghost var swept := Refuse(Tables(), Ok);
      for i := 0 to |dues|
        invariant swept == Sweep(old(Tables()), dues[..i]) && Shows(swept, old(events))
      {
        SweepNext(old(Tables()), dues, i);
        ghost var last := Inventory.ReleaseBits(swept.db, dues[i], true);
        ReleaseBits(dues[i], true);
        assert old(events) + (swept.log + last.log) == old(events) + swept.log + last.log;
        swept := Reply(last.db, Ok, swept.log + last.log);
      }
      assert dues[..|dues|] == dues;
    }

    method SweepExpired(now: int, limit: nat, locked: set<HoldId>) returns (n: nat, ghost dues: seq<HoldId>)
      modifies this
      ensures n == |dues| <= limit && Distinct(dues) && holds.Keys == old(holds).Keys
      ensures forall h :: h in dues ==> h in old(holds) && old(holds)[h].status == HELD && old(holds)[h].expires < now && h !in locked
      ensures forall h :: h in old(holds) && old(holds)[h].status == HELD && old(holds)[h].expires < now && h !in locked && h !in dues ==>
        n == limit && forall d :: d in dues ==> old(holds)[d].expires <= old(holds)[h].expires
      ensures forall h :: h in old(holds) ==> holds[h] == if h in dues then old(holds)[h].(status := EXPIRED) else old(holds)[h]
      ensures Shows(Inventory.SweepExpired(old(Tables()), dues, now), old(events))
    {
      var picked := SelectDue(now, limit, locked);
      SweepHoldsAll(Tables(), picked);
      hide Sweep;
      SweepDues(picked);
      return |picked|, picked;
    }

    // ---- counter quota ------------------------------------------------------------------

    /** The loop of AllocateQuota. */
    method BlockSeats(c: CounterId, trip: TripId, nos: seq<SeatNo>, ms: map<SeatNo, Mask>, mask: Mask)
      returns (ok: bool)
      requires mask != 0 && (forall no :: no in nos <==> no in ms) && forall no :: no in ms ==> ms[no] == mask
      modifies this`seats, this`quota, this`events
      ensures ok <==> Distinct(nos) && AllReady(old(seats), trip, ms, Block)
      ensures ok ==> seats == Touch(old(seats), trip, ms, Block) && quota == old(quota) + QuotaRows(c, trip, ms, QuotaAllocated)
      ensures ok ==> events == old(events) + Batch(QUOTA_ALLOCATED, trip, nos, ms)
    {
      BlocksNothing(Tables(), c, trip, nos, ms, mask);
      hide BlockedSoFar, Distinct, AllReady, Touch;
      for i := 0 to |nos|
        invariant BlockedSoFar(old(Tables()), Tables(), c, trip, nos, ms, mask, i)
        invariant events == old(events) + Batch(QUOTA_ALLOCATED, trip, nos[..i], ms)
      {
        OneMoreBlock(old(Tables()), Tables(), c, trip, nos, ms, mask, i);
        BatchNext(QUOTA_ALLOCATED, trip, nos, ms, i);
        var rows := UpdateSeat(Seat(trip, nos[i]), mask, Block);
        if rows != 1 { return false; }
        quota := quota[QuotaKey(c, trip, nos[i], mask) := QuotaAllocated];
        events := events + [Event(QUOTA_ALLOCATED, Seat(trip, nos[i]), mask)];
      }
      assert nos[..|nos|] == nos;
      AllBlocked(old(Tables()), Tables(), c, trip, nos, ms, mask);
      return true;
    }

    method AllocateQuota(c: CounterId, trip: TripId, request: seq<SeatNo>, board: int, drop: int) returns (out: Outcome)
      modifies this
      ensures out == Inventory.AllocateQuota(old(Tables()), c, trip, request, board, drop).out
      ensures Shows(Inventory.AllocateQuota(old(Tables()), c, trip, request, board, drop), old(events))
    {
      if request == [] { return ErrNoSeats; }
      if |request| > MAX_QUOTA_SEATS { return ErrQuotaTooLarge; }
      var sm := SegmentMask(board, drop);
      if sm == None { return ErrBadSegments; }
      var saved, log, ms := Tables(), events, Each(request, sm.value);
      JourneyNotEmpty(board, drop);
      AllocateInOrder(Tables(), c, trip, request, board, drop, ms);
      var ok := BlockSeats(c, trip, SortSeats(request), ms, sm.value);
      if !ok { Rollback(saved, log); return ErrSeatUnavailable; }
      return Ok;
    }

    /** One seat of ReleaseQuota. */
    method ReturnSeat(c: CounterId, trip: TripId, no: SeatNo, mask: Mask)
      requires InQuota(Tables(), QuotaKey(c, trip, no, mask))
      modifies this`seats, this`quota, this`events
      ensures quota == old(quota)[QuotaKey(c, trip, no, mask) := QuotaReleased]
      ensures seats == UnblockOne(old(seats), Seat(trip, no), mask)
      ensures events == old(events) + [Event(QUOTA_RELEASED, Seat(trip, no), mask)]
    {
      quota := quota[QuotaKey(c, trip, no, mask) := QuotaReleased];
      var rows := UpdateSeat(Seat(trip, no), mask, Unblock);
      events := events + [Event(QUOTA_RELEASED, Seat(trip, no), mask)];
    }

    /** The loop of ReleaseQuota: seats that are not this counter's, or not any more, are skipped. */
    method ReturnSeats(c: CounterId, trip: TripId, request: seq<SeatNo>, mask: Mask)
      modifies this`seats, this`quota, this`events
      ensures var back := Returnable(old(Tables()), c, trip, request, mask);
        ReturnedSoFar(old(Tables()), Tables(), c, trip, back, mask)
        && events == old(events) + Batch(QUOTA_RELEASED, trip, back, Each(back, mask))
    {
      hide ReturnedSoFar, Returnable;
      ghost var back := ReturnsNothing(Tables(), c, trip, mask);
      for i := 0 to |request|
        invariant back == Returnable(old(Tables()), c, trip, request[..i], mask)
        invariant ReturnedSoFar(old(Tables()), Tables(), c, trip, back, mask)
        invariant events == old(events) + Batch(QUOTA_RELEASED, trip, back, Each(back, mask))
      {
        OneMoreReturn(old(Tables()), Tables(), c, trip, request, mask, i);
        var key := QuotaKey(c, trip, request[i], mask);
        if key in quota && quota[key] == QuotaAllocated {
          ReturnSeat(c, trip, request[i], mask);
          back := back + [request[i]];
        }
      }
      assert request[..|request|] == request;
    }

    method ReleaseQuota(c: CounterId, trip: TripId, request: seq<SeatNo>, mask: Mask) returns (out: Outcome)
      modifies this
      ensures out == Inventory.ReleaseQuota(old(Tables()), c, trip, request, mask).out
      ensures Shows(Inventory.ReleaseQuota(old(Tables()), c, trip, request, mask), old(events))
    {
      ReturnSeats(c, trip, request, mask);
      ghost var back := Returnable(old(Tables()), c, trip, request, mask);
      QuotaWritten(old(quota), quota, c, trip, back, Each(back, mask), mask, QuotaReleased);
      return Ok;
    }

    /** One seat of SellQuota: the quota row first, then the seat, then the item and the event. */
    method SellSeat(h: HoldId, c: CounterId, trip: TripId, no: SeatNo, mask: Mask) returns (ok: bool)
      modifies this`seats, this`quota, this`items, this`events
      ensures ok <==> InQuota(old(Tables()), QuotaKey(c, trip, no, mask)) && Seat(trip, no) in old(seats)
                      && Ready(BlockToSold, old(seats)[Seat(trip, no)], mask)
      ensures ok ==> seats == old(seats)[Seat(trip, no) := Apply(BlockToSold, old(seats)[Seat(trip, no)], mask)]
      ensures ok ==> quota == old(quota)[QuotaKey(c, trip, no, mask) := QuotaSold]
      ensures ok ==> items == old(items)[ItemKey(h, no) := ItemRow(trip, mask)]
      ensures ok ==> events == old(events) + [Event(SEAT_BOOKED, Seat(trip, no), mask)]
    {
      var key := QuotaKey(c, trip, no, mask);
      if !(key in quota && quota[key] == QuotaAllocated) { return false; }
      quota := quota[key := QuotaSold];
      var rows := UpdateSeat(Seat(trip, no), mask, BlockToSold);
      if rows != 1 { return false; }
      items := items[ItemKey(h, no) := ItemRow(trip, mask)];
      events := events + [Event(SEAT_BOOKED, Seat(trip, no), mask)];
      return true;
    }

    /** The loop of SellQuota. */
    method SellSeats(h: HoldId, c: CounterId, trip: TripId, nos: seq<SeatNo>, ms: map<SeatNo, Mask>, mask: Mask)
      returns (ok: bool)
      requires mask != 0 && (forall no :: no in nos <==> no in ms) && forall no :: no in ms ==> ms[no] == mask
      modifies this`seats, this`quota, this`items, this`events
      ensures ok <==> Distinct(nos) && Owned(old(Tables()), c, trip, ms) && AllReady(old(seats), trip, ms, BlockToSold)
      ensures ok ==> seats == Touch(old(seats), trip, ms, BlockToSold) && quota == old(quota) + QuotaRows(c, trip, ms, QuotaSold)
      ensures ok ==> items == old(items) + NewItems(h, trip, ms) && events == old(events) + Batch(SEAT_BOOKED, trip, nos, ms)
    {
      SellsNothing(Tables(), h, c, trip, nos, ms, mask);
      hide QuotaSoldSoFar, Distinct, Owned, AllReady, Touch;
      for i := 0 to |nos|
        invariant QuotaSoldSoFar(old(Tables()), Tables(), h, c, trip, nos, ms, mask, i)
        invariant events == old(events) + Batch(SEAT_BOOKED, trip, nos[..i], ms)
      {
        OneMoreSale(old(Tables()), Tables(), h, c, trip, nos, ms, mask, i);
        BatchNext(SEAT_BOOKED, trip, nos, ms, i);
        var sold := SellSeat(h, c, trip, nos[i], mask);
        if !sold { return false; }
      }
      assert nos[..|nos|] == nos;
      AllSold(old(Tables()), Tables(), h, c, trip, nos, ms, mask);
      return true;
    }

    /** The transaction of SellQuota. */
    method SellReserved(h: HoldId, c: CounterId, trip: TripId, nos: seq<SeatNo>, ms: map<SeatNo, Mask>, mask: Mask,
            now: int) returns (out: Outcome)
      requires mask != 0 && (forall no :: no in nos <==> no in ms) && forall no :: no in ms ==> ms[no] == mask
      modifies this
      ensures out == if h in old(holds) then ErrDuplicateKey
                     else if !(Distinct(nos) && Owned(old(Tables()), c, trip, ms) && AllReady(old(seats), trip, ms, BlockToSold)) then ErrNotInQuota
                     else Ok
      ensures Tables() == if out == Ok then QuotaSale(old(Tables()), h, c, trip, ms, now) else old(Tables())
      ensures events == old(events) + if out == Ok then Batch(SEAT_BOOKED, trip, nos, ms) else []
    {
      if h in holds { return ErrDuplicateKey; }
      var saved, log := Tables(), events;
      holds := holds[h := HoldRow(trip, CONFIRMED, now)];
      var ok := SellSeats(h, c, trip, nos, ms, mask);
      if !ok { Rollback(saved, log); return ErrNotInQuota; }
      return Ok;
    }

    method SellQuota(h: HoldId, c: CounterId, trip: TripId, request: seq<SeatNo>, board: int, drop: int, now: int)
      returns (out: Outcome)
      modifies this
      ensures out == Inventory.SellQuota(old(Tables()), h, c, trip, request, board, drop, now).out
      ensures Shows(Inventory.SellQuota(old(Tables()), h, c, trip, request, board, drop, now), old(events))
    {
      var sm := SegmentMask(board, drop);
      if sm == None { return ErrBadSegments; }
      if request == [] { return ErrNoSeats; }
      var ms := Each(request, sm.value);
      JourneyNotEmpty(board, drop);
      SellInOrder(Tables(), h, c, trip, request, board, drop, now, ms);
      out := SellReserved(h, c, trip, SortSeats(request), ms, sm.value, now);
    }

    // ---- moving, withdrawing and opening seats ---------------------------------------------

    method Reassign(h: HoldId, oldNo: SeatNo, newNo: SeatNo) returns (out: Outcome)
      modifies this
      ensures out == Inventory.Reassign(old(Tables()), h, oldNo, newNo).out
      ensures Shows(Inventory.Reassign(old(Tables()), h, oldNo, newNo), old(events))
    {
      if oldNo == newNo { return Ok; }
      if ItemKey(h, oldNo) !in items { return ErrHoldNotFound; }
      var saved, log, item := Tables(), events, items[ItemKey(h, oldNo)];
      var from, to := Seat(item.trip, oldNo), Seat(item.trip, newNo);
      var rows := UpdateSeat(to, item.mask, TakeSold);
      if rows != 1 { return ErrSeatUnavailable; }
      // the guarded release of the old seat
      if from !in seats || !Covers(seats[from].sold, item.mask) { Rollback(saved, log); return ErrNotSold; }
      rows := UpdateSeat(from, item.mask, Unsell);
      if ItemKey(h, newNo) in items { Rollback(saved, log); return ErrDuplicateKey; }
      items := (items - {ItemKey(h, oldNo)})[ItemKey(h, newNo) := item];
      events := events + [Event(SEAT_RELEASED, from, item.mask), Event(SEAT_BOOKED, to, item.mask)];
      return Ok;
    }

    method WithdrawSeat(trip: TripId, no: SeatNo) returns (out: Outcome)
      modifies this
      ensures out == Inventory.WithdrawSeat(old(Tables()), trip, no).out
      ensures Shows(Inventory.WithdrawSeat(old(Tables()), trip, no), old(events))
    {
      if trip !in trips { return ErrNoRows; }
      var s, all := Seat(trip, no), AllSegments(trips[trip]);
      if s in seats { seats := seats[s := Withdraw(seats[s], all)]; }
      events := events + [Event(SEAT_BLOCKED, s, all)];
      return Ok;
    }

    method AddSeats(trip: TripId, specs: seq<SeatSpec>) returns (out: Outcome, added: nat)
      modifies this
      ensures out == Inventory.AddSeats(old(Tables()), trip, specs).out
      ensures Shows(Inventory.AddSeats(old(Tables()), trip, specs), old(events))
      ensures |seats| == |old(seats)| + added
    {
      if trip !in trips { return ErrNoRows, 0; }
      added := 0;
      for i := 0 to |specs|
        invariant Tables() == old(Tables()).(seats := seats) && events == old(events)
        invariant seats == WithSeats(old(seats), trip, trips[trip], specs[..i]) && |seats| == |old(seats)| + added
      {
        assert specs[..i + 1][..i] == specs[..i];
        var s := Seat(trip, specs[i].no);
        if s !in seats {
          seats, added := seats[s := NewRow(specs[i], trips[trip])], added + 1;
        }
      }
      assert specs[..|specs|] == specs;
      return Ok, added;
    }

    /** INSERT INTO trip_seats, one layout seat after the other, until a key is taken. */
    method InsertSeats(trip: TripId, segments: nat, specs: seq<SeatSpec>) returns (ok: bool)
      modifies this`seats
      ensures ok <==> FreshSeats(old(seats), trip, specs)
      ensures ok ==> seats == WithSeats(old(seats), trip, segments, specs)
    {
      for i := 0 to |specs|
        invariant FreshSeats(old(seats), trip, specs[..i]) && seats == WithSeats(old(seats), trip, segments, specs[..i])
      {
        FreshNext(old(seats), trip, segments, specs, i);
        InsertNext(old(seats), trip, segments, specs, i);
        if Seat(trip, specs[i].no) in seats {
          if FreshSeats(old(seats), trip, specs) { FreshPrefix(old(seats), trip, specs, i + 1); }
          return false;
        }
        seats := seats[Seat(trip, specs[i].no) := NewRow(specs[i], segments)];
      }
      assert specs[..|specs|] == specs;
      return true;
    }

    /** The transaction of OpenTrip. */
    method InsertTrip(trip: TripId, segments: nat, specs: seq<SeatSpec>) returns (out: Outcome)
      modifies this
      ensures out == if FreshSeats(old(seats), trip, specs) then Ok else ErrDuplicateKey
      ensures out == Ok ==> trips == old(trips)[trip := segments] && seats == WithSeats(old(seats), trip, segments, specs)
      ensures holds == old(holds) && items == old(items) && quota == old(quota) && events == old(events)
      ensures out != Ok ==> trips == old(trips) && seats == old(seats)
    {
      var saved, log := Tables(), events;
      trips := trips[trip := segments];
      var ok := InsertSeats(trip, segments, specs);
      out := if ok then Ok else ErrDuplicateKey;
      if !ok { Rollback(saved, log); }
    }

    method OpenTrip(trip: TripId, segments: int, specs: seq<SeatSpec>) returns (out: Outcome)
      modifies this
      ensures out == Inventory.OpenTrip(old(Tables()), trip, segments, specs).out
      ensures Shows(Inventory.OpenTrip(old(Tables()), trip, segments, specs), old(events))
    {
      if segments < 1 || segments > MAX_SEGMENTS { return ErrBadSegments; }
      if specs == [] { return ErrNoSeats; }
      if trip in trips { return Ok; }
      out := InsertTrip(trip, segments, specs);
    }

    // ---- availability ---------------------------------------------------------------------

    /** ORDER BY deck, row_idx, col_idx. */
    ghost predicate ByPlace(trip: TripId, nos: seq<SeatNo>) {
      forall i, j :: 0 <= i < j < |nos| ==> place(Seat(trip, nos[i])) <= place(Seat(trip, nos[j]))
    }

    method FirstPlace(trip: TripId, nos: set<SeatNo>) returns (first: SeatNo)
      requires nos != {}
      ensures first in nos && forall no :: no in nos ==> place(Seat(trip, first)) <= place(Seat(trip, no))
    {
      first :| first in nos;
      var rest := nos - {first};
      while rest != {}
        invariant rest <= nos && first in nos
        invariant forall no :: no in nos - rest ==> place(Seat(trip, first)) <= place(Seat(trip, no))
        decreases rest
      {
        var no :| no in rest;
        if place(Seat(trip, no)) < place(Seat(trip, first)) { first := no; }
        rest := rest - {no};
      }
    }

    /** The free seats, front to back. */
    method FreeSeats(trip: TripId, board: int, drop: int) returns (r: Option<seq<SeatNo>>)
      ensures r == None <==> SegmentMask(board, drop) == None
      ensures r.Some? ==> Distinct(r.value) && forall no :: no in r.value <==> no in FreeFor(Tables(), trip, SegmentMask(board, drop).value)
      ensures r.Some? ==> ByPlace(trip, r.value)
    {
      var sm := SegmentMask(board, drop);
      if sm == None { return None; }
      var rest, free := FreeFor(Tables(), trip, sm.value), [];
      while rest != {}
        invariant Distinct(free) && ByPlace(trip, free)
        invariant forall no :: no in FreeFor(Tables(), trip, sm.value) <==> no in free || no in rest
        invariant forall no, other :: no in free && other in rest ==> no != other && place(Seat(trip, no)) <= place(Seat(trip, other))
        decreases rest
      {
        var no := FirstPlace(trip, rest);
        free, rest := free + [no], rest - {no};
      }
      return Some(free);
    }

    /** The rows of the trip, ORDER BY seat_no. */
    method SeatsOfTrip(trip: TripId) returns (nos: seq<SeatNo>)
      ensures Ascending(nos) && forall no :: no in nos <==> Seat(trip, no) in seats
    {
      var mine := set s | s in seats && s.trip == trip :: s.no;
      forall no ensures no in mine <==> Seat(trip, no) in seats {
        if Seat(trip, no) in seats { assert Seat(trip, no).no == no; }
      }
      return InOrder(mine);
    }

    method ScanStates(trip: TripId, nos: seq<SeatNo>, m: Mask) returns (entries: seq<SeatEntry>)
      requires forall no :: no in nos ==> Seat(trip, no) in seats
      ensures |entries| == |nos|
      ensures forall i :: 0 <= i < |nos| ==> entries[i] == SeatEntry(nos[i], StateOf(seats[Seat(trip, nos[i])], m))
    {
      entries := [];
      for i := 0 to |nos|
        invariant |entries| == i
        invariant forall j :: 0 <= j < i ==> entries[j] == SeatEntry(nos[j], StateOf(seats[Seat(trip, nos[j])], m))
      {
        entries := entries + [SeatEntry(nos[i], StateOf(seats[Seat(trip, nos[i])], m))];
      }
    }

    /** SeatMap: every seat of the trip with its flags, in seat order. */
    method SeatMap(trip: TripId, board: int, drop: int) returns (r: Option<seq<SeatEntry>>)
      ensures r == None <==> SegmentMask(board, drop) == None
      ensures r.Some? ==> Ascending(Numbers(r.value)) && forall no :: no in Numbers(r.value) <==> Seat(trip, no) in seats
      ensures r.Some? ==> forall i :: 0 <= i < |r.value| ==>
        Seat(trip, r.value[i].no) in seats && Tells(seats[Seat(trip, r.value[i].no)], SegmentMask(board, drop).value, r.value[i].state)
      ensures r.Some? ==> forall i :: 0 <= i < |r.value| ==>
        (r.value[i].state.available <==> r.value[i].no in FreeFor(Tables(), trip, SegmentMask(board, drop).value))
    {
      var sm := SegmentMask(board, drop);
      if sm == None { return None; }
      var nos := SeatsOfTrip(trip);
      var entries := ScanStates(trip, nos, sm.value);
      assert Numbers(entries) == nos;
      hide StateOf, Tells, FreeFor, SegmentMask;
      forall i | 0 <= i < |entries|
        ensures Seat(trip, entries[i].no) in seats && Tells(seats[Seat(trip, entries[i].no)], sm.value, entries[i].state)
        ensures entries[i].state.available <==> entries[i].no in FreeFor(Tables(), trip, sm.value)
      {
        assert nos[i] in nos;
        EntryTells(Tables(), trip, nos[i], sm.value);
      }
      return Some(entries);
    }

    method CountAvailable(trip: TripId, board: int, drop: int) returns (r: Option<nat>)
      ensures r == None <==> SegmentMask(board, drop) == None
      ensures r.Some? ==> r.value == |FreeFor(Tables(), trip, SegmentMask(board, drop).value)|
    {
      var sm := SegmentMask(board, drop);
      if sm == None { return None; }
      var n, rest := 0, seats.Keys;
      ghost var counted: set<SeatNo> := {};
      while rest != {}
        invariant rest <= seats.Keys && n == |counted|
        invariant forall no :: no in counted <==>
          Seat(trip, no) in seats && Seat(trip, no) !in rest && Free(seats[Seat(trip, no)], sm.value)
        decreases rest
      {
        var s :| s in rest;
        rest := rest - {s};
        if s.trip == trip && Free(seats[s], sm.value) { n, counted := n + 1, counted + {s.no}; }
      }
      forall no ensures no in counted <==> no in FreeFor(Tables(), trip, sm.value) {
        if no in counted { assert Seat(trip, no).no in FreeFor(Tables(), trip, sm.value); }
      }
      assert counted == FreeFor(Tables(), trip, sm.value);
      return Some(n);
    }
  }
}
