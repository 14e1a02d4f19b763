/** Capacities and masks: the ring maps a position to a slot with a mask instead of a modulo. */
module RingMath {
  import opened Bytes

  function Pow2(k: nat): (r: nat)
    ensures r > 0
  {
    if k == 0 then 1 else 2 * Pow2(k - 1)
  }

  /** Bitwise and of two naturals. */
  function BitAnd(a: nat, b: nat): nat {
    if a == 0 || b == 0 then 0
    else 2 * BitAnd(a / 2, b / 2) + (if a % 2 == 1 && b % 2 == 1 then 1 else 0)
  }

  /** bits.Len: how many bits n takes. */
  function BitLen(n: nat): nat {
    if n == 0 then 0 else 1 + BitLen(n / 2)
  }

  lemma ModTwo(p: nat, m: nat)
    requires m > 0
    ensures 2 * ((p / 2) % m) + p % 2 == p % (2 * m)
  {
    var q := p / 2 / m;
    assert p / 2 == m * q + (p / 2) % m;
    assert p == 2 * (m * q) + (2 * ((p / 2) % m) + p % 2);
    assert 2 * (m * q) == (2 * m) * q;
    DivisionUnique(p, 2 * m, q, 2 * ((p / 2) % m) + p % 2);
  }

  lemma BitAndOdd(p: nat, m: nat)
    requires m > 0
    ensures BitAnd(p, 2 * m - 1) == 2 * BitAnd(p / 2, m - 1) + p % 2
  {
    assert (2 * m - 1) / 2 == m - 1 && (2 * m - 1) % 2 == 1;
  }

  /** Masking with capacity - 1 is the remainder, for a power-of-two capacity. */
  lemma {:induction false} MaskIsMod(p: nat, k: nat)
    ensures BitAnd(p, Pow2(k) - 1) == p % Pow2(k)
  {
    if k > 0 {
      BitAndOdd(p, Pow2(k - 1));
      MaskIsMod(p / 2, k - 1);
      ModTwo(p, Pow2(k - 1));
    }
  }

  lemma {:induction false} BitAndSelf(n: nat)
    ensures BitAnd(n, n) == n
  {
    if n > 0 {
      BitAndSelf(n / 2);
    }
  }

  predicate IsPow2(n: nat) {
    n > 0 && n == Pow2(BitLen(n) - 1)
  }

  lemma {:induction false} BitLenBounds(n: nat)
    requires n > 0
    ensures BitLen(n) > 0 && Pow2(BitLen(n) - 1) <= n < Pow2(BitLen(n))
  {
    if n > 1 {
      BitLenBounds(n / 2);
    }
  }

  lemma {:induction false} BitLenPow2(k: nat)
    ensures BitLen(Pow2(k)) == k + 1
  {
    if k > 0 {
      BitLenPow2(k - 1);
    }
  }

  /** The one-bit test the constructor uses recognises exactly the powers of two. */
  lemma {:induction false} OneBitTest(n: nat)
    requires n > 0
    ensures BitAnd(n, n - 1) == 0 <==> IsPow2(n)
  {
    if n > 1 {
      var m, bits := n / 2, BitLen(n / 2);
      assert bits > 0 && BitLen(n) - 1 == bits && Pow2(bits) == 2 * Pow2(bits - 1);
      if n % 2 == 1 {
        assert (n - 1) / 2 == m && (n - 1) % 2 == 0;
        BitAndSelf(m);
        assert BitAnd(n, n - 1) == 2 * m;
      } else {
        assert n == 2 * m;
        BitAndOdd(n, m);
        OneBitTest(m);
        assert IsPow2(n) <==> IsPow2(m);
      }
    } else {
      assert BitLen(1) == 1 + BitLen(0);
    }
  }

  lemma {:induction false} Pow2Monotone(j: nat, k: nat)
    requires j <= k
    ensures Pow2(j) <= Pow2(k)
    decreases k
  {
    if j < k {
      Pow2Monotone(j, k - 1);
    }
  }

  /** The smallest power of two at or above n, never below two. */
  function RoundUpPow2(n: int): nat {
    if n < 2 then 2
    else if BitAnd(n, n - 1) == 0 then n
    else Pow2(BitLen(n))
  }

  lemma RoundUpIsLeast(n: int, k: nat)
    ensures IsPow2(RoundUpPow2(n)) && RoundUpPow2(n) >= 2 && RoundUpPow2(n) >= n
    ensures Pow2(k) >= 2 && Pow2(k) >= n ==> RoundUpPow2(n) <= Pow2(k)
  {
    assert BitLen(2) == 2 && Pow2(1) == 2;
    if n >= 2 {
      OneBitTest(n);
      BitLenBounds(n);
      BitLenPow2(BitLen(n));
      if Pow2(k) >= n && BitLen(n) > k {
        Pow2Monotone(k, BitLen(n) - 1);
        assert n == Pow2(k) == Pow2(BitLen(n) - 1);
      } else if BitLen(n) <= k {
        Pow2Monotone(BitLen(n), k);
      }
    }
  }

  lemma PositiveFactor(m: int, x: int)
    requires m > 0 && m * x > 0
    ensures x >= 1
  {
    if x <= -1 {
      MulAtLeast(m, -x);
    }
  }

  lemma DifferenceMultiple(p: int, q: int, m: int)
    requires m > 0 && p % m == q % m && p < q
    ensures q - p >= m
  {
    var a, b := p / m, q / m;
    assert p == m * a + p % m && q == m * b + q % m;
    assert q - p == m * (b - a);
    PositiveFactor(m, b - a);
    MulAtLeast(m, b - a);
  }

  /** Two positions closer than a lap never share a slot. */
  lemma WindowInjective(p: int, q: int, m: int)
    requires m > 0 && p % m == q % m && -m < p - q < m
    ensures p == q
  {
    if p < q {
      DifferenceMultiple(p, q, m);
    } else if q < p {
      DifferenceMultiple(q, p, m);
    }
  }

  lemma NextLap(p: int, m: int)
    requires m > 0
    ensures (p + m) % m == p % m
  {
    assert p == m * (p / m) + p % m;
    assert p + m == m * (p / m + 1) + p % m;
    DivisionUnique(p + m, m, p / m + 1, p % m);
  }
}
