/** Line headers: timestamp precision and the lock-free header caches (formatters/json/time_header.go). */
module TimeHeader {
  import opened Bytes

  const SECOND: int := 1_000_000_000

  datatype Precision = PrecisionSecond | PrecisionMilli | PrecisionMicro | PrecisionNano

  /** The RFC 3339 rendering of a second in the process's fixed zone (time.AppendFormat). */
  type Stamp = int -> bytes

  predicate NoEscape(c: bv8) {
    c >= 0x20 && c != 0x22 && c != 0x5c
  }

  predicate AllClean(s: bytes) {
    forall k :: 0 <= k < |s| ==> NoEscape(s[k])
  }

  /** What RFC 3339 guarantees: a 19-byte date and time, then a zone of at most six bytes. */
  ghost predicate StampOk(stamp: Stamp) {
    forall sec {:trigger stamp(sec)} :: 19 < |stamp(sec)| <= 25 && AllClean(stamp(sec))
  }

  /** TRACE, DEBUG, INFO, WARN, ERROR, FATAL, PANIC. */
  function LevelName(level: nat): (r: bytes)
    ensures |r| <= 5 && AllClean(r)
  {
    if level == 0 then [0x54, 0x52, 0x41, 0x43, 0x45]
    else if level == 1 then [0x44, 0x45, 0x42, 0x55, 0x47]
    else if level == 2 then [0x49, 0x4e, 0x46, 0x4f]
    else if level == 3 then [0x57, 0x41, 0x52, 0x4e]
    else if level == 4 then [0x45, 0x52, 0x52, 0x4f, 0x52]
    else if level == 5 then [0x46, 0x41, 0x54, 0x41, 0x4c]
    else [0x50, 0x41, 0x4e, 0x49, 0x43]
  }

  // ,"level":"
  const LEVEL_OPEN: bytes := [0x2c, 0x22, 0x6c, 0x65, 0x76, 0x65, 0x6c, 0x22, 0x3a, 0x22]

  /** The level member of each level (levelCache). */
  function LevelText(level: nat): (r: bytes)
    ensures |r| <= 16
  {
    LEVEL_OPEN + LevelName(level) + [0x22]
  }

  // {"time":"
  const TIME_OPEN: bytes := [0x7b, 0x22, 0x74, 0x69, 0x6d, 0x65, 0x22, 0x3a, 0x22]

  function ClampLevel(level: nat): (r: nat)
    ensures r <= 6
  {
    if level > 6 then 6 else level
  }

  // Go's integer division truncates toward zero.
  function TruncDiv(a: int, b: int): int
    requires b > 0
  {
    if a >= 0 then a / b else -((-a) / b)
  }

  function TruncMod(a: int, b: int): int
    requires b > 0
  {
    a - b * TruncDiv(a, b)
  }

  /** Floor split of a unix-nanosecond timestamp into seconds and a non-negative remainder. */
  function SplitUnixNanos(unixNanos: int): (r: (int, int))
    ensures r.0 * SECOND + r.1 == unixNanos
    ensures 0 <= r.1 < SECOND
  {
    var sec := TruncDiv(unixNanos, SECOND);
    var frac := TruncMod(unixNanos, SECOND);
    if frac < 0 then (sec - 1, frac + SECOND) else (sec, frac)
  }

  /** Exactly `digits` decimal digits, zero padded, of the low end of frac. */
  function FracDigits(frac: nat, digits: nat): (r: bytes)
    ensures |r| == digits
  {
    if digits == 0 then [] else FracDigits(frac / 10, digits - 1) + [Digit(frac % 10)]
  }

  function Pow10(n: nat): (r: nat)
    ensures r > 0
  {
    if n == 0 then 1 else 10 * Pow10(n - 1)
  }

  lemma {:induction false} ModTen(frac: nat, m: nat)
    requires m > 0
    ensures (frac / 10) % m * 10 + frac % 10 == frac % (10 * m)
  {
    var q := frac / 10 / m;
    assert frac / 10 == q * m + (frac / 10) % m;
    assert frac == 10 * (q * m) + ((frac / 10) % m * 10 + frac % 10);
    assert 10 * (q * m) == (10 * m) * q;
    var r := (frac / 10) % m * 10 + frac % 10;
    assert 0 <= r < 10 * m;
    DivisionUnique(frac, 10 * m, q, r);
  }

  lemma ParseSnoc(s: bytes, v: nat, d: nat)
    requires ParseDigits(s) == Some(v) && d < 10
    ensures ParseDigits(s + [Digit(d)]) == Some(v * 10 + d)
  {
    var t := s + [Digit(d)];
    assert t[..|t| - 1] == s && t[|t| - 1] == Digit(d);
  }

  lemma ParseNext(s: bytes, frac: nat, m: nat, whole: nat)
    requires m > 0 && whole == 10 * m && ParseDigits(s) == Some((frac / 10) % m)
    ensures ParseDigits(s + [Digit(frac % 10)]) == Some(frac % whole)
  {
    ParseSnoc(s, (frac / 10) % m, frac % 10);
    ModTen(frac, m);
  }

  lemma {:induction false} FracDigitsClean(frac: nat, digits: nat)
    ensures AllClean(FracDigits(frac, digits))
  {
    if digits > 0 {
      FracDigitsClean(frac / 10, digits - 1);
      assert NoEscape(Digit(frac % 10));
    }
  }

  /** The digits read back as the fraction; nothing is lost while frac has at most `digits` digits. */
  lemma {:induction false} FracDigitsParse(frac: nat, digits: nat)
    ensures ParseDigits(FracDigits(frac, digits)) == Some(frac % Pow10(digits))
    ensures AllClean(FracDigits(frac, digits))
    decreases digits
  {
    FracDigitsClean(frac, digits);
    if digits > 0 {
      var tenth := frac / 10;
      FracDigitsParse(tenth, digits - 1);
      ParseNext(FracDigits(tenth, digits - 1), frac, Pow10(digits - 1), Pow10(digits));
    }
  }

  function FracWidth(p: Precision): nat {
    match p
    case PrecisionSecond => 0
    case PrecisionMilli => 3
    case PrecisionMicro => 6
    case PrecisionNano => 9
  }

  function FracUnit(p: Precision): nat {
    match p
    case PrecisionSecond => 1_000_000_000
    case PrecisionMilli => 1_000_000
    case PrecisionMicro => 1_000
    case PrecisionNano => 1
  }

  /** The timestamp text of a line, rendered without any cache. */
  function TimeText(stamp: Stamp, p: Precision, unixNanos: int): bytes {
    var (sec, nanos) := SplitUnixNanos(unixNanos);
    var t := stamp(sec);
    if p == PrecisionSecond || |t| < 19 then t
    else t[..19] + [0x2e] + FracDigits(nanos / FracUnit(p), FracWidth(p)) + t[19..]
  }

  function HeaderAround(time: bytes, lvl: nat): bytes {
    TIME_OPEN + time + [0x22] + LevelText(lvl)
  }

  /** The header of a line, rendered without any cache. */
  function Header(stamp: Stamp, p: Precision, unixNanos: int, level: nat): bytes {
    HeaderAround(TimeText(stamp, p, unixNanos), ClampLevel(level))
  }

  lemma Pow10Widths(p: Precision)
    ensures p != PrecisionSecond ==> Pow10(FracWidth(p)) * FracUnit(p) == SECOND
  {
    assert Pow10(3) == 10 * Pow10(2) == 100 * Pow10(1) == 1_000 * Pow10(0);
    assert Pow10(6) == 10 * Pow10(5) == 100 * Pow10(4) == 1_000 * Pow10(3);
    assert Pow10(9) == 10 * Pow10(8) == 100 * Pow10(7) == 1_000 * Pow10(6);
  }

  lemma FracFits(p: Precision, nanos: nat)
    requires p != PrecisionSecond && nanos < SECOND
    ensures (nanos / FracUnit(p)) % Pow10(FracWidth(p)) == nanos / FracUnit(p)
  {
    Pow10Widths(p);
    match p
    case PrecisionMilli =>
    case PrecisionMicro =>
    case PrecisionNano =>
  }

  /** Sub-second digits of a line's time: the nanoseconds truncated to the precision, exactly. */
  lemma TimeTextCarriesFraction(stamp: Stamp, p: Precision, unixNanos: int)
    requires StampOk(stamp)
    requires p != PrecisionSecond
    ensures var (sec, nanos) := SplitUnixNanos(unixNanos);
            var t := TimeText(stamp, p, unixNanos);
            && |t| == |stamp(sec)| + 1 + FracWidth(p)
            && t[..19] == stamp(sec)[..19]
            && ParseDigits(t[20..20 + FracWidth(p)]) == Some(nanos / FracUnit(p))
            && t[20 + FracWidth(p)..] == stamp(sec)[19..]
  {
    var (sec, nanos) := SplitUnixNanos(unixNanos);
    var width := FracWidth(p);
    var digits := FracDigits(nanos / FracUnit(p), width);
    FracFits(p, nanos);
    FracDigitsParse(nanos / FracUnit(p), width);
    SplicedParts(stamp(sec), digits);
  }

  lemma SplicedParts(t: bytes, digits: bytes)
    requires |t| >= 19
    ensures var u := t[..19] + [0x2e] + digits + t[19..];
            && |u| == |t| + 1 + |digits|
            && u[..19] == t[..19]
            && u[20..20 + |digits|] == digits
            && u[20 + |digits|..] == t[19..]
  {
  }
}
