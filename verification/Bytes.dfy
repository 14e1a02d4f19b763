/** Byte strings and decimal text. Go strings and byte slices are sequences of 8-bit values. */
module Bytes {

  datatype Option<+T> = None | Some(value: T)

  type bytes = seq<bv8>

  const DIGITS: bytes := [0x30, 0x31, 0x32, 0x33, 0x34, 0x35, 0x36, 0x37, 0x38, 0x39]

  function Digit(d: nat): (r: bv8)
    requires d < 10
    ensures IsDigit(r) && DigitValue(r) == d
  {
    DIGITS[d]
  }

  predicate IsDigit(b: bv8) {
    0x30 <= b <= 0x39
  }

  function DigitValue(b: bv8): nat {
    if b == 0x30 then 0 else if b == 0x31 then 1 else if b == 0x32 then 2 else if b == 0x33 then 3
    else if b == 0x34 then 4 else if b == 0x35 then 5 else if b == 0x36 then 6 else if b == 0x37 then 7
    else if b == 0x38 then 8 else 9
  }

  /** strconv.Itoa / AppendUint in base ten. */
  function NatText(n: nat): bytes {
    if n < 10 then [Digit(n)] else NatText(n / 10) + [Digit(n % 10)]
  }

  /** strconv.AppendInt in base ten. */
  function IntText(i: int): bytes {
    if i < 0 then [0x2d] + NatText(-i) else NatText(i)
  }

  /** Reads decimal digits, most significant first; None when a byte is not a digit. */
  function ParseDigits(s: bytes): Option<nat> {
    if s == [] then Some(0)
    else if !IsDigit(s[|s| - 1]) then None
    else match ParseDigits(s[..|s| - 1])
      case None => None
      case Some(v) => Some(10 * v + DigitValue(s[|s| - 1]))
  }

  function ParseInt(s: bytes): Option<int> {
    if s == [] || s == [0x2d] then None
    else
      var digits := ParseDigits(if s[0] == 0x2d then s[1..] else s);
      if digits.None? then None
      else
        var v: int := digits.value;
        Some(if s[0] == 0x2d then -v else v)
  }

  lemma {:induction false} NatTextParses(n: nat)
    ensures |NatText(n)| > 0
    ensures ParseDigits(NatText(n)) == Some(n)
    ensures forall k :: 0 <= k < |NatText(n)| ==> IsDigit(NatText(n)[k])
  {
    var t := NatText(n);
    if n < 10 {
      assert t[..|t| - 1] == [];
    } else {
      NatTextParses(n / 10);
      assert t[..|t| - 1] == NatText(n / 10);
    }
  }

  /** Decimal text is undone by ParseInt, so two integers never share a rendering. */
  lemma IntTextParses(i: int)
    ensures ParseInt(IntText(i)) == Some(i)
    ensures |IntText(i)| > 0
    ensures IntText(i)[0] == 0x2d || IsDigit(IntText(i)[0])
    ensures forall k :: 1 <= k < |IntText(i)| ==> IsDigit(IntText(i)[k])
  {
    NatTextParses(if i < 0 then -i else i);
    if i < 0 {
      assert IntText(i)[1..] == NatText(-i);
    }
  }

  lemma QuotientUnique(b: int, q: int, r: int, q1: int, r1: int)
    requires 0 <= r < b && 0 <= r1 < b && b * q + r == b * q1 + r1
    ensures q == q1 && r == r1
  {
    assert b * (q - q1) == r1 - r;
    if q - q1 >= 1 {
      MulAtLeast(b, q - q1);
      assert false;
    } else if q1 - q >= 1 {
      MulAtLeast(b, q1 - q);
      assert false;
    }
  }

  lemma MulAtLeast(b: int, x: int)
    requires b > 0 && x >= 1
    ensures b * x >= b
  {
  }

  lemma DivisionUnique(a: int, b: int, q: int, r: int)
    requires 0 <= r < b && a == b * q + r
    ensures a % b == r && a / b == q
  {
    QuotientUnique(b, q, r, a / b, a % b);
  }
}
