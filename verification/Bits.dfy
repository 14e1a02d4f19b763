/** Bit masks as naturals: setting, testing, and walking the set bits from the lowest. */
module Bits {
  import opened RingMath

  /** Bit i of m. */
  predicate Bit(m: nat, i: nat) {
    if i == 0 then m % 2 == 1 else Bit(m / 2, i - 1)
  }

  function BitOr(a: nat, b: nat): nat
    decreases a + b
  {
    if a == 0 && b == 0 then 0
    else 2 * BitOr(a / 2, b / 2) + (if a % 2 == 1 || b % 2 == 1 then 1 else 0)
  }

  /** 1 << i in 64 bits: the bit, or zero once it is shifted out. */
  function OneShifted(i: nat): nat {
    if i < 64 then Pow2(i) else 0
  }

  lemma {:induction false} ZeroHasNoBits(j: nat)
    ensures !Bit(0, j)
  {
    if j > 0 {
      ZeroHasNoBits(j - 1);
    }
  }

  lemma {:induction false} OrBits(a: nat, b: nat, j: nat)
    ensures Bit(BitOr(a, b), j) <==> Bit(a, j) || Bit(b, j)
  {
    if a == 0 && b == 0 {
      ZeroHasNoBits(j);
    } else if j > 0 {
      assert BitOr(a, b) / 2 == BitOr(a / 2, b / 2);
      OrBits(a / 2, b / 2, j - 1);
    }
  }

  lemma {:induction false} Pow2Bits(i: nat, j: nat)
    ensures Bit(Pow2(i), j) <==> i == j
  {
    if i == 0 && j > 0 {
      ZeroHasNoBits(j - 1);
    } else if i > 0 && j > 0 {
      Pow2Bits(i - 1, j - 1);
    }
  }

  lemma {:induction false} OrFits(a: nat, b: nat, n: nat)
    requires a < Pow2(n) && b < Pow2(n)
    ensures BitOr(a, b) < Pow2(n)
    decreases n
  {
    if n > 0 && !(a == 0 && b == 0) {
      OrFits(a / 2, b / 2, n - 1);
    }
  }

  /** OR-ing in a shifted one sets that bit and no other; past 63 it sets nothing. */
  lemma SetBitBits(m: nat, i: nat, j: nat)
    ensures Bit(BitOr(m, OneShifted(i)), j) <==> Bit(m, j) || (i == j && i < 64)
  {
    OrBits(m, OneShifted(i), j);
    Pow2Bits(i, j);
    ZeroHasNoBits(j);
  }

  lemma {:induction false} OrZero(m: nat)
    ensures BitOr(m, 0) == m
  {
    if m > 0 {
      OrZero(m / 2);
    }
  }

  /** OR-ing in a bit that is already set changes nothing. */
  lemma {:induction false} OrPresent(m: nat, i: nat)
    requires Bit(m, i)
    ensures BitOr(m, Pow2(i)) == m
  {
    if i == 0 {
      OrZero(m / 2);
    } else {
      if m == 0 {
        ZeroHasNoBits(i);
      }
      OrPresent(m / 2, i - 1);
    }
  }

  lemma {:induction false} Pow2Grows(i: nat, n: nat)
    requires i < n
    ensures Pow2(i) < Pow2(n)
  {
    if i > 0 {
      Pow2Grows(i - 1, n - 1);
    } else {
      assert Pow2(n) == 2 * Pow2(n - 1);
    }
  }

  lemma SetBitFits(m: nat, i: nat)
    requires m < Pow2(64)
    ensures BitOr(m, OneShifted(i)) < Pow2(64)
  {
    if i < 64 {
      Pow2Grows(i, 64);
    }
    OrFits(m, OneShifted(i), 64);
  }

  lemma {:induction false} AndPow2(m: nat, i: nat)
    ensures BitAnd(m, Pow2(i)) != 0 <==> Bit(m, i)
  {
    if m == 0 {
      ZeroHasNoBits(i);
    } else if i == 0 {
      assert BitAnd(m / 2, 0) == 0;
    } else {
      AndPow2(m / 2, i - 1);
    }
  }

  /** Testing with a shifted one: the bit, and false past 63. */
  lemma TestBit(m: nat, i: nat)
    ensures BitAnd(m, OneShifted(i)) != 0 <==> Bit(m, i) && i < 64
  {
    AndPow2(m, i);
  }

  lemma {:induction false} NoHighBits(m: nat, n: nat, j: nat)
    requires m < Pow2(n) && j >= n
    ensures !Bit(m, j)
  {
    if n == 0 {
      ZeroHasNoBits(j);
    } else {
      NoHighBits(m / 2, n - 1, j - 1);
    }
  }

  // ---- Walking the set bits ----

  function TrailingZeros(m: nat): nat
    requires m > 0
  {
    if m % 2 == 1 then 0 else 1 + TrailingZeros(m / 2)
  }

  lemma {:induction false} LowestBit(m: nat)
    requires m > 0
    ensures Bit(m, TrailingZeros(m))
    ensures forall j: nat :: j < TrailingZeros(m) ==> !Bit(m, j)
  {
    if m % 2 == 0 {
      LowestBit(m / 2);
      forall j: nat | j < TrailingZeros(m) ensures !Bit(m, j) {
        assert j > 0 ==> !Bit(m / 2, j - 1);
      }
    }
  }

  /** m & (m - 1) clears the lowest set bit and nothing else, so the walk ends. */
  lemma {:induction false} ClearLowest(m: nat, j: nat)
    requires m > 0
    ensures BitAnd(m, m - 1) < m
    ensures Bit(BitAnd(m, m - 1), j) <==> Bit(m, j) && j != TrailingZeros(m)
  {
    if m % 2 == 1 {
      BitAndSelf(m / 2);
      assert (m - 1) / 2 == m / 2;
      assert BitAnd(m, m - 1) == m - 1;
    } else {
      assert (m - 1) / 2 == m / 2 - 1 && (m - 1) % 2 == 1;
      assert BitAnd(m, m - 1) == 2 * BitAnd(m / 2, m / 2 - 1);
      ClearLowest(m / 2, if j > 0 then j - 1 else 0);
    }
  }

  /** The set bits from lo up to hi, in ascending order. */
  function Ones(m: nat, lo: nat, hi: nat): seq<nat>
    decreases hi - lo
  {
    if lo >= hi then [] else (if Bit(m, lo) then [lo] else []) + Ones(m, lo + 1, hi)
  }

  lemma {:induction false} OnesAre(m: nat, lo: nat, hi: nat)
    ensures forall k: nat :: k in Ones(m, lo, hi) <==> lo <= k < hi && Bit(m, k)
    ensures forall i, j :: 0 <= i < j < |Ones(m, lo, hi)| ==> Ones(m, lo, hi)[i] < Ones(m, lo, hi)[j]
    decreases hi - lo
  {
    if lo < hi {
      OnesAre(m, lo + 1, hi);
      var rest := Ones(m, lo + 1, hi);
      forall k | k in rest ensures k > lo {
      }
      forall j | 0 <= j < |rest| ensures rest[j] > lo {
        assert rest[j] in rest;
      }
    }
  }

  lemma {:induction false} OnesSame(a: nat, b: nat, lo: nat, hi: nat)
    requires forall j: nat :: lo <= j < hi ==> (Bit(a, j) <==> Bit(b, j))
    ensures Ones(a, lo, hi) == Ones(b, lo, hi)
    decreases hi - lo
  {
    if lo < hi {
      OnesSame(a, b, lo + 1, hi);
    }
  }

  lemma {:induction false} OnesSkip(m: nat, lo: nat, mid: nat, hi: nat)
    requires lo <= mid <= hi && forall j: nat :: lo <= j < mid ==> !Bit(m, j)
    ensures Ones(m, lo, hi) == Ones(m, mid, hi)
    decreases mid - lo
  {
    if lo < mid {
      OnesSkip(m, lo + 1, mid, hi);
    }
  }

  /** One step of the walk takes the first of the set bits. */
  lemma WalkStep(m: nat, n: nat)
    requires 0 < m < Pow2(n)
    ensures TrailingZeros(m) < n && BitAnd(m, m - 1) < m
    ensures Ones(m, 0, n) == [TrailingZeros(m)] + Ones(BitAnd(m, m - 1), 0, n)
  {
    var t := TrailingZeros(m);
    LowestBit(m);
    if t >= n {
      NoHighBits(m, n, t);
    }
    var rest := BitAnd(m, m - 1);
    forall j: nat ensures Bit(rest, j) <==> Bit(m, j) && j != t {
      ClearLowest(m, j);
    }
    ClearLowest(m, 0);
    OnesSkip(m, 0, t, n);
    OnesSkip(rest, 0, t + 1, n);
    OnesSame(m, rest, t + 1, n);
  }

  lemma {:induction false} ZeroHasNoOnes(lo: nat, hi: nat)
    ensures Ones(0, lo, hi) == []
    decreases hi - lo
  {
    if lo < hi {
      ZeroHasNoBits(lo);
      ZeroHasNoOnes(lo + 1, hi);
    }
  }

  lemma Joined<T>(a: seq<T>, x: T, b: seq<T>, c: seq<T>)
    requires c == [x] + b
    ensures a + c == (a + [x]) + b
  {
  }

  /** The walk itself: the set bits of m, lowest first. */
  method WalkBits(m: nat, width: nat) returns (found: seq<nat>)
    requires m < Pow2(width)
    ensures found == Ones(m, 0, width)
  {
    found := [];
    var active: nat := m;
    while active != 0
      invariant active <= m
      invariant found + Ones(active, 0, width) == Ones(m, 0, width)
    {
      WalkStep(active, width);
      Joined(found, TrailingZeros(active), Ones(BitAnd(active, active - 1), 0, width), Ones(active, 0, width));
      found := found + [TrailingZeros(active)];
      active := BitAnd(active, active - 1);
    }
    ZeroHasNoOnes(0, width);
  }

  /** bits.OnesCount64. */
  function OnesCount(m: nat): nat {
    if m == 0 then 0 else m % 2 + OnesCount(m / 2)
  }

  lemma {:induction false} OnesShift(m: nat, lo: nat, hi: nat)
    ensures |Ones(m, lo + 1, hi + 1)| == |Ones(m / 2, lo, hi)|
    decreases hi - lo
  {
    if lo < hi {
      OnesShift(m, lo + 1, hi);
    }
  }

  lemma {:induction false} CountIsLength(m: nat, n: nat)
    requires m < Pow2(n)
    ensures OnesCount(m) == |Ones(m, 0, n)|
    decreases n
  {
    if m == 0 {
      ZeroHasNoOnes(0, n);
    } else {
      OnesShift(m, 0, n - 1);
      CountIsLength(m / 2, n - 1);
    }
  }
}
