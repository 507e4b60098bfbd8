/** Stock results. */
module Wrappers {
  datatype Option<+T> = None | Some(value: T) {
    function GetOr(default: T): T { if Some? then value else default }
  }
}

/** Segment masks: the arithmetic of services/inventory/inventory/mask.go.

  A mask is a `bigint` column used as a set of segment ordinals. It is modelled as the
  natural number the column holds; `Bit` reads one segment, and the SQL operators
  `|`, `&` and `& ~` are defined digit by digit. `JourneyBits` says that nothing is lost
  by leaving out the sign bit.
 */
module Bits {
  import opened Wrappers

  type Mask = nat

  const MAX_SEGMENTS: nat := 62

  /** Segment `k` is in the mask. */
  predicate Bit(m: Mask, k: nat) { Digit(m, k) == 1 }

  function Digit(m: Mask, k: nat): nat {
    if k == 0 then m % 2 else Digit(m / 2, k - 1)
  }

  lemma ZeroHasNoBits()
    ensures forall k: nat :: !Bit(0, k)
  {
    forall k: nat ensures !Bit(0, k) { ZeroBit(k); }
  }

  lemma {:induction false} ZeroBit(k: nat)
    ensures !Bit(0, k)
  {
    if k > 0 { ZeroBit(k - 1); }
  }

  function Or(a: Mask, b: Mask): (m: Mask)
    ensures forall k: nat :: Bit(m, k) <==> Bit(a, k) || Bit(b, k)
  {
    if a == 0 && b == 0 then 0
    else
      var m := 2 * Or(a / 2, b / 2) + if a % 2 == 1 || b % 2 == 1 then 1 else 0;
      Halves(a, b, m); m
  }

  function And(a: Mask, b: Mask): (m: Mask)
    ensures forall k: nat :: Bit(m, k) <==> Bit(a, k) && Bit(b, k)
    decreases a + b
  {
    if a == 0 && b == 0 then 0
    else
      var m := 2 * And(a / 2, b / 2) + if a % 2 == 1 && b % 2 == 1 then 1 else 0;
      Halves(a, b, m); m
  }

  /** The SQL expression `a & ~b`, and Go's `a &^ b`. */
  function AndNot(a: Mask, b: Mask): (m: Mask)
    ensures forall k: nat :: Bit(m, k) <==> Bit(a, k) && !Bit(b, k)
    ensures m <= a
  {
    if a == 0 then ZeroHasNoBits(); 0
    else
      var m := 2 * AndNot(a / 2, b / 2) + if a % 2 == 1 && b % 2 == 0 then 1 else 0;
      Halves(a, b, m); m
  }

  /** Reads each bit of three masks from its last digit or from its half. */
  lemma Halves(a: Mask, b: Mask, m: Mask)
    ensures forall k: nat {:trigger Bit(m, k)} :: HalfBit(a, k) && HalfBit(b, k) && HalfBit(m, k)
  {
    forall k: nat ensures HalfBit(a, k) && HalfBit(b, k) && HalfBit(m, k) {
      BitOfHalf(a, k); BitOfHalf(b, k); BitOfHalf(m, k);
    }
  }

  ghost predicate HalfBit(m: Mask, k: nat) {
    Bit(m, k) <==> if k == 0 then m % 2 == 1 else Bit(m / 2, k - 1)
  }

  lemma BitOfHalf(m: Mask, k: nat)
    ensures HalfBit(m, k)
  {
  }

  /** A mask is determined by its bits. */
  lemma {:induction false} Extensional(a: Mask, b: Mask)
    requires forall k: nat :: Bit(a, k) <==> Bit(b, k)
    ensures a == b
  {
    if a != 0 || b != 0 {
      forall k: nat ensures Bit(a / 2, k) <==> Bit(b / 2, k) {
        assert Bit(a, k + 1) <==> Bit(b, k + 1);
      }
      assert Bit(a, 0) <==> Bit(b, 0);
      Extensional(a / 2, b / 2);
    }
  }

  /** The lowest set bit of a non-empty mask. */
  function LowBit(m: Mask): (k: nat)
    requires m != 0
    ensures Bit(m, k)
  {
    if m % 2 == 1 then 0 else LowBit(m / 2) + 1
  }

  /** The guard `a & b = 0`. */
  predicate Disjoint(a: Mask, b: Mask)
    ensures Disjoint(a, b) <==> forall k: nat :: !(Bit(a, k) && Bit(b, k))
  {
    AndIsZero(a, b);
    And(a, b) == 0
  }

  /** The guard `(a & b) = b`. */
  predicate Covers(a: Mask, b: Mask)
    ensures Covers(a, b) <==> forall k: nat :: Bit(b, k) ==> Bit(a, k)
  {
    AndIsRight(a, b);
    And(a, b) == b
  }

  lemma AndIsZero(a: Mask, b: Mask)
    ensures And(a, b) == 0 <==> forall k: nat :: !(Bit(a, k) && Bit(b, k))
  {
    ZeroHasNoBits();
    if And(a, b) != 0 { assert Bit(And(a, b), LowBit(And(a, b))); }
    if And(a, b) == 0 {
      forall k: nat ensures !(Bit(a, k) && Bit(b, k)) { assert !Bit(And(a, b), k); }
    }
  }

  lemma AndIsRight(a: Mask, b: Mask)
    ensures And(a, b) == b <==> forall k: nat :: Bit(b, k) ==> Bit(a, k)
  {
    if forall k: nat :: Bit(b, k) ==> Bit(a, k) { Extensional(And(a, b), b); }
    if And(a, b) == b {
      forall k: nat | Bit(b, k) ensures Bit(a, k) { assert Bit(And(a, b), k); }
    }
  }

  // ---- journeys ---------------------------------------------------------------

  function Pow2(n: nat): (p: nat)
    ensures p >= 1
  {
    if n == 0 then 1 else 2 * Pow2(n - 1)
  }

  /** SegmentMask: the segments of a journey from stop `board` to stop `drop`. */
  function SegmentMask(board: int, drop: int): Option<Mask> {
    if board < 0 || drop <= board || drop > MAX_SEGMENTS then None
    else Pow2Monotone(board, drop); Some(Pow2(drop) - Pow2(board))
  }

  /** Every segment of a trip with `n` segments: `1 << n - 1`. */
  function AllSegments(n: nat): Mask { Pow2(n) - 1 }

  lemma {:induction false} Pow2Monotone(a: nat, b: nat)
    requires a <= b
    ensures Pow2(a) <= Pow2(b)
    decreases b
  {
    if a < b { Pow2Monotone(a, b - 1); }
  }

  lemma {:induction false} RangeBits(b: nat, d: nat, k: nat)
    requires b <= d
    ensures Pow2(d) >= Pow2(b)
    ensures Bit(Pow2(d) - Pow2(b), k) <==> b <= k < d
    decreases d
  {
    Pow2Monotone(b, d);
    var m := Pow2(d) - Pow2(b);
    if d == 0 {
      ZeroBit(k);
    } else if b > 0 {
      RangeBits(b - 1, d - 1, if k == 0 then 0 else k - 1);
      assert m == 2 * (Pow2(d - 1) - Pow2(b - 1));
      assert m % 2 == 0 && m / 2 == Pow2(d - 1) - Pow2(b - 1);
    } else {
      RangeBits(0, d - 1, if k == 0 then 0 else k - 1);
      assert m == 2 * (Pow2(d - 1) - 1) + 1;
      assert m % 2 == 1 && m / 2 == Pow2(d - 1) - 1;
    }
  }

  lemma JourneyBits(board: int, drop: int)
    ensures SegmentMask(board, drop).Some? <==> 0 <= board < drop <= MAX_SEGMENTS
    ensures SegmentMask(board, drop).Some? ==>
              var m := SegmentMask(board, drop).value;
              0 < m < Pow2(63) && forall k: nat :: Bit(m, k) <==> board <= k < drop
  {
    if 0 <= board < drop <= MAX_SEGMENTS {
      var m := SegmentMask(board, drop).value;
      forall k: nat ensures Bit(m, k) <==> board <= k < drop { RangeBits(board, drop, k); }
      ZeroHasNoBits();
      assert Bit(m, board);
      Pow2Monotone(drop, 63);
    }
  }

  lemma JourneyNotEmpty(board: int, drop: int)
    ensures SegmentMask(board, drop).Some? ==> SegmentMask(board, drop).value != 0
  {
    JourneyBits(board, drop);
  }

  /** Two journeys contend for a segment exactly when their stop intervals intersect. */
  lemma OverlapIsIntersection(b1: int, d1: int, b2: int, d2: int)
    requires SegmentMask(b1, d1).Some? && SegmentMask(b2, d2).Some?
    ensures Disjoint(SegmentMask(b1, d1).value, SegmentMask(b2, d2).value) <==> d1 <= b2 || d2 <= b1
  {
    JourneyBits(b1, d1);
    JourneyBits(b2, d2);
    var k := if b1 <= b2 then b2 else b1;
    assert Bit(SegmentMask(b1, d1).value, k) && Bit(SegmentMask(b2, d2).value, k) <==> !(d1 <= b2 || d2 <= b1);
  }

  lemma AllBits(n: nat)
    ensures forall k: nat :: Bit(AllSegments(n), k) <==> k < n
  {
    forall k: nat ensures Bit(AllSegments(n), k) <==> k < n { RangeBits(0, n, k); }
  }

  // ---- recovering a journey from its mask ----------------------------------------

  /** maskToRange (services/api/httpapi/booking.go): scan the 62 segments upwards. */
  method MaskToRange(mask: Mask) returns (board: int, drop: int)
    ensures (forall k: nat :: Bit(mask, k) ==> k >= MAX_SEGMENTS) ==> board == 0 && drop == 1
    ensures (exists k: nat :: k < MAX_SEGMENTS && Bit(mask, k)) ==>
              && 0 <= board < drop <= MAX_SEGMENTS && Bit(mask, board) && Bit(mask, drop - 1)
              && forall k: nat :: k < MAX_SEGMENTS && Bit(mask, k) ==> board <= k < drop
    ensures forall b: int, d: int :: SegmentMask(b, d) == Some(mask) ==> board == b && drop == d
  {
    board, drop := -1, -1;
    for i := 0 to MAX_SEGMENTS
      invariant board == -1 <==> drop == -1
      invariant board == -1 ==> forall k: nat :: k < i ==> !Bit(mask, k)
      invariant board != -1 ==> 0 <= board < drop <= i && Bit(mask, board) && Bit(mask, drop - 1)
      invariant board != -1 ==> forall k: nat :: k < i && Bit(mask, k) ==> board <= k < drop
    {
      if Bit(mask, i) {
        if board == -1 { board := i; }
        drop := i + 1;
      }
    }
    forall b: int, d: int | SegmentMask(b, d) == Some(mask)
      ensures board == b && drop == d
    {
      JourneyBits(b, d);
      assert Bit(mask, b) && Bit(mask, d - 1);
    }
    if board == -1 { return 0, 1; }
  }
}
