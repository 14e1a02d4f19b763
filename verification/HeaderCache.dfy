/** The lock-free per-second header caches, sequentially as code and concurrently as a step machine. */
module HeaderCache {
  import opened Bytes
  import opened Sequences
  import opened TimeHeader

  /** An immutable snapshot of a (second, level) header in a fixed 64-byte buffer. */
  datatype FusedHeader = FusedHeader(sec: int, n: nat, buf: bytes)

  /** An immutable snapshot of a second's timestamp in a fixed 40-byte buffer. */
  datatype TsParts = TsParts(sec: int, n: nat, buf: bytes)

  ghost predicate FusedOk(stamp: Stamp, lvl: nat, h: FusedHeader)
    requires lvl <= 6
  {
    h.n <= |h.buf| && h.buf[..h.n] == HeaderAround(stamp(h.sec), lvl)
  }

  ghost predicate PartsOk(stamp: Stamp, p: TsParts) {
    19 <= p.n <= |p.buf| && p.buf[..p.n] == stamp(p.sec)
  }

  function Padded(text: bytes, size: nat): (r: bytes)
    requires |text| <= size
    ensures |r| == size && r[..|text|] == text
  {
    text + seq(size - |text|, _ => 0)
  }

  function FusedFor(stamp: Stamp, sec: int, lvl: nat): FusedHeader
    requires lvl <= 6
    requires |HeaderAround(stamp(sec), lvl)| <= 64
  {
    var text := HeaderAround(stamp(sec), lvl);
    FusedHeader(sec, |text|, Padded(text, 64))
  }

  function PartsFor(stamp: Stamp, sec: int): TsParts
    requires |stamp(sec)| <= 40
  {
    TsParts(sec, |stamp(sec)|, Padded(stamp(sec), 40))
  }

  lemma HeaderFits(stamp: Stamp, sec: int, lvl: nat)
    requires StampOk(stamp) && lvl <= 6
    ensures |HeaderAround(stamp(sec), lvl)| <= 51
  {
  }

  function SubText(p: TsParts, prec: Precision, nanos: int, level: nat): bytes
    requires 19 <= p.n <= |p.buf|
  {
    TIME_OPEN + p.buf[..19] + [0x2e] + FracDigits(SplitUnixNanos(nanos).1 / FracUnit(prec), FracWidth(prec))
    + p.buf[19..p.n] + [0x22] + LevelText(ClampLevel(level))
  }

  lemma SubTextIsHeader(stamp: Stamp, p: TsParts, prec: Precision, nanos: int, level: nat)
    requires StampOk(stamp) && PartsOk(stamp, p) && prec != PrecisionSecond && p.sec == SplitUnixNanos(nanos).0
    ensures SubText(p, prec, nanos, level) == Header(stamp, prec, nanos, level)
  {
    assert p.buf[..19] == stamp(p.sec)[..19] && p.buf[19..p.n] == stamp(p.sec)[19..];
  }

  /** Copies text into an array at position at, as append does within capacity. */
  method CopyInto(a: array<bv8>, at: nat, text: bytes) returns (end: nat)
    requires at + |text| <= a.Length
    modifies a
    ensures end == at + |text|
    ensures a[..end] == old(a[..at]) + text
  {
    for i := 0 to |text|
      invariant a[..at + i] == old(a[..at]) + text[..i]
    {
      a[at + i] := text[i];
    }
    end := at + |text|;
  }

  /** Writes the digits into a scratch array from the least significant end. */
  method AppendFracDigits(dst: bytes, frac: nat, digits: nat) returns (r: bytes)
    requires digits <= 9
    ensures r == dst + FracDigits(frac, digits)
  {
    var scratch := new bv8[9];
    var i, f := digits, frac;
    while i > 0
      invariant 0 <= i <= digits
      invariant FracDigits(frac, digits) == FracDigits(f, i) + scratch[i..digits]
    {
      i := i - 1;
      scratch[i] := Digit(f % 10);
      f := f / 10;
    }
    r := dst + scratch[..digits];
  }

  /** Renders the fused header of a second and level into a fixed 64-byte array. */
  method RenderFused(stamp: Stamp, sec: int, lvl: nat) returns (h: FusedHeader)
    requires StampOk(stamp) && lvl <= 6
    ensures FusedOk(stamp, lvl, h) && h.sec == sec
    ensures h.n <= |h.buf| && h.buf[..h.n] == HeaderAround(stamp(sec), lvl)
  {
    HeaderFits(stamp, sec, lvl);
    var buf := new bv8[64];
    var time, name := stamp(sec), LevelText(lvl);
    var n := CopyInto(buf, 0, TIME_OPEN);
    assert buf[..n] == TIME_OPEN;
    n := CopyInto(buf, n, time);
    n := CopyInto(buf, n, [0x22]);
    n := CopyInto(buf, n, name);
    assert buf[..n] == TIME_OPEN + time + [0x22] + name;
    h := FusedHeader(sec, n, buf[..]);
    assert h.buf[..h.n] == buf[..n];
  }

  lemma PartsRegrouped(dst: bytes, a: bytes, b: bytes, c: bytes, d: bytes, e: bytes, f: bytes, g: bytes)
    ensures dst + a + b + c + d + e + f + g == dst + (a + b + c + d + e + f + g)
  {
    Assoc4(dst, a, b, c, d);
    Assoc3(dst, a + b + c + d, e, f);
    Assoc(dst, a + b + c + d + e + f, g);
  }

  method AppendParts(dst: bytes, p: TsParts, prec: Precision, unixNanos: int, level: nat) returns (r: bytes)
    requires 19 <= p.n <= |p.buf|
    ensures r == dst + SubText(p, prec, unixNanos, level)
  {
    var frac := SplitUnixNanos(unixNanos).1 / FracUnit(prec);
    r := dst + TIME_OPEN + p.buf[..19] + [0x2e];
    r := AppendFracDigits(r, frac, FracWidth(prec));
    r := r + p.buf[19..p.n] + [0x22] + LevelText(ClampLevel(level));
    PartsRegrouped(dst, TIME_OPEN, p.buf[..19], [0x2e], FracDigits(frac, FracWidth(prec)), p.buf[19..p.n], [0x22],
                   LevelText(ClampLevel(level)));
  }

  class Caches {
    const stamp: Stamp
    var fused: seq<Option<FusedHeader>>
    var ts: Option<TsParts>

    ghost predicate Valid()
      reads this
    {
      && StampOk(stamp)
      && |fused| == 7
      && (forall l :: 0 <= l < 7 && fused[l].Some? ==> FusedOk(stamp, l, fused[l].value))
      && (ts.Some? ==> PartsOk(stamp, ts.value))
    }

    constructor (stamp: Stamp)
      requires StampOk(stamp)
      ensures Valid() && this.stamp == stamp
    {
      this.stamp := stamp;
      fused := seq(7, _ => None);
      ts := None;
    }

    /** The fused header: one copy on a hit, rebuilt and published when the second rolled over. */
    method AppendHeaderSecond(dst: bytes, unixNanos: int, level: nat) returns (r: bytes)
      requires Valid()
      modifies this
      ensures Valid() && ts == old(ts)
      ensures r == dst + Header(stamp, PrecisionSecond, unixNanos, level)
    {
      var lvl := ClampLevel(level);
      var sec := SplitUnixNanos(unixNanos).0;
      var h := fused[lvl];
      if h.Some? && h.value.sec == sec {
        r := dst + h.value.buf[..h.value.n];
      } else {
        r := BuildFusedHeader(dst, sec, lvl);
      }
    }

    method BuildFusedHeader(dst: bytes, sec: int, lvl: nat) returns (r: bytes)
      requires Valid() && lvl <= 6
      modifies this
      ensures Valid() && ts == old(ts)
      ensures fused[lvl].Some? && fused[lvl].value.sec == sec
      ensures forall l :: 0 <= l < 7 && l != lvl ==> fused[l] == old(fused)[l]
      ensures r == dst + HeaderAround(stamp(sec), lvl)
    {
      var h := RenderFused(stamp, sec, lvl);
      fused := fused[lvl := Some(h)];
      r := dst + h.buf[..h.n];
    }

    method BuildTsParts(sec: int) returns (p: TsParts)
      requires Valid()
      modifies this
      ensures Valid() && fused == old(fused)
      ensures PartsOk(stamp, p) && p.sec == sec && ts == Some(p)
    {
      var buf := new bv8[40];
      var n := CopyInto(buf, 0, stamp(sec));
      p := TsParts(sec, n, buf[..]);
      assert p.buf[..p.n] == buf[..n] == stamp(sec);
      ts := Some(p);
    }

    /** Fractional digits spliced between the cached date-time prefix and the zone suffix. */
    method AppendHeaderSub(dst: bytes, prec: Precision, unixNanos: int, level: nat) returns (r: bytes)
      requires Valid() && prec != PrecisionSecond
      modifies this
      ensures Valid() && fused == old(fused)
      ensures r == dst + Header(stamp, prec, unixNanos, level)
    {
      var sec := SplitUnixNanos(unixNanos).0;
      var p: TsParts;
      if ts.Some? && ts.value.sec == sec {
        p := ts.value;
      } else {
        p := BuildTsParts(sec);
      }
      SubTextIsHeader(stamp, p, prec, unixNanos, level);
      r := AppendParts(dst, p, prec, unixNanos, level);
    }
  }

  // ---- The caches shared by any number of threads ----

  /** One thread's progress through a header call: each constructor is the state between two atomic steps. */
  datatype Thread =
    | Idle
    | SecondLoaded(nanos: int, level: nat, hit: Option<FusedHeader>)
    | SecondBuilt(nanos: int, level: nat, h: FusedHeader)
    | SubLoaded(prec: Precision, nanos: int, level: nat, part: Option<TsParts>)
    | SubBuilt(prec: Precision, nanos: int, level: nat, p: TsParts)
    | Returned(prec: Precision, nanos: int, level: nat, text: bytes)

  datatype Shared = Shared(fused: seq<Option<FusedHeader>>, ts: Option<TsParts>, threads: seq<Thread>)

  datatype Step = Call(t: nat, prec: Precision, nanos: int, level: nat) | Next(t: nat)

  /** One atomic step: an atomic load starts a call, an atomic store publishes a rebuilt snapshot. */
  ghost function Apply(stamp: Stamp, s: Shared, step: Step): Shared
    requires Inv(stamp, s)
  {
    if step.t >= |s.threads| then s
    else match step
      case Call(t, prec, nanos, level) =>
        if !(s.threads[t].Idle? || s.threads[t].Returned?) then s
        else if prec == PrecisionSecond then
          s.(threads := s.threads[t := SecondLoaded(nanos, level, s.fused[ClampLevel(level)])])
        else
          s.(threads := s.threads[t := SubLoaded(prec, nanos, level, s.ts)])
      case Next(t) =>
        match s.threads[t]
        case Idle => s
        case Returned(_, _, _, _) => s
        case SecondLoaded(nanos, level, hit) =>
          var sec := SplitUnixNanos(nanos).0;
          if hit.Some? && hit.value.sec == sec then
            s.(threads := s.threads[t := Returned(PrecisionSecond, nanos, level, hit.value.buf[..hit.value.n])])
          else
            HeaderFits(stamp, sec, ClampLevel(level));
            s.(threads := s.threads[t := SecondBuilt(nanos, level, FusedFor(stamp, sec, ClampLevel(level)))])
        case SecondBuilt(nanos, level, h) =>
          s.(fused := s.fused[ClampLevel(level) := Some(h)],
             threads := s.threads[t := Returned(PrecisionSecond, nanos, level, h.buf[..h.n])])
        case SubLoaded(prec, nanos, level, part) =>
          var sec := SplitUnixNanos(nanos).0;
          if part.Some? && part.value.sec == sec then
            s.(threads := s.threads[t := Returned(prec, nanos, level, SubText(part.value, prec, nanos, level))])
          else
            s.(threads := s.threads[t := SubBuilt(prec, nanos, level, PartsFor(stamp, sec))])
        case SubBuilt(prec, nanos, level, p) =>
          s.(ts := Some(p),
             threads := s.threads[t := Returned(prec, nanos, level, SubText(p, prec, nanos, level))])
  }

  ghost predicate ThreadOk(stamp: Stamp, th: Thread) {
    match th
    case Idle => true
    case SecondLoaded(nanos, level, hit) => hit.Some? ==> FusedOk(stamp, ClampLevel(level), hit.value)
    case SecondBuilt(nanos, level, h) => h.sec == SplitUnixNanos(nanos).0 && FusedOk(stamp, ClampLevel(level), h)
    case SubLoaded(prec, nanos, level, part) => prec != PrecisionSecond && (part.Some? ==> PartsOk(stamp, part.value))
    case SubBuilt(prec, nanos, level, p) =>
      prec != PrecisionSecond && p.sec == SplitUnixNanos(nanos).0 && PartsOk(stamp, p)
    case Returned(prec, nanos, level, text) => text == Header(stamp, prec, nanos, level)
  }

  ghost predicate Inv(stamp: Stamp, s: Shared) {
    && StampOk(stamp)
    && |s.fused| == 7
    && (forall l :: 0 <= l < 7 && s.fused[l].Some? ==> FusedOk(stamp, l, s.fused[l].value))
    && (s.ts.Some? ==> PartsOk(stamp, s.ts.value))
    && (forall t :: 0 <= t < |s.threads| ==> ThreadOk(stamp, s.threads[t]))
  }

  lemma SecondKeepsInv(stamp: Stamp, s: Shared, t: nat)
    requires Inv(stamp, s) && t < |s.threads| && (s.threads[t].SecondLoaded? || s.threads[t].SecondBuilt?)
    ensures Inv(stamp, Apply(stamp, s, Next(t))) && |Apply(stamp, s, Next(t)).threads| == |s.threads|
  {
    var th := s.threads[t];
    if th.SecondLoaded? {
      HeaderFits(stamp, SplitUnixNanos(th.nanos).0, ClampLevel(th.level));
    }
  }

  lemma SubLoadedKeepsInv(stamp: Stamp, s: Shared, t: nat)
    requires Inv(stamp, s) && t < |s.threads| && s.threads[t].SubLoaded?
    ensures Inv(stamp, Apply(stamp, s, Next(t))) && |Apply(stamp, s, Next(t)).threads| == |s.threads|
  {
    var th := s.threads[t];
    if th.part.Some? && th.part.value.sec == SplitUnixNanos(th.nanos).0 {
      SubTextIsHeader(stamp, th.part.value, th.prec, th.nanos, th.level);
    }
  }

  lemma SubBuiltKeepsInv(stamp: Stamp, s: Shared, t: nat)
    requires Inv(stamp, s) && t < |s.threads| && s.threads[t].SubBuilt?
    ensures Inv(stamp, Apply(stamp, s, Next(t))) && |Apply(stamp, s, Next(t)).threads| == |s.threads|
  {
    var th := s.threads[t];
    SubTextIsHeader(stamp, th.p, th.prec, th.nanos, th.level);
  }

  lemma StepKeepsInv(stamp: Stamp, s: Shared, step: Step)
    requires Inv(stamp, s)
    ensures Inv(stamp, Apply(stamp, s, step))
    ensures |Apply(stamp, s, step).threads| == |s.threads|
  {
    if step.t < |s.threads| && step.Next? {
      match s.threads[step.t]
      case SecondLoaded(_, _, _) => SecondKeepsInv(stamp, s, step.t);
      case SecondBuilt(_, _, _) => SecondKeepsInv(stamp, s, step.t);
      case SubLoaded(_, _, _, _) => SubLoadedKeepsInv(stamp, s, step.t);
      case SubBuilt(_, _, _, _) => SubBuiltKeepsInv(stamp, s, step.t);
      case _ =>
    }
  }

  ghost function Run(stamp: Stamp, s: Shared, steps: seq<Step>): (r: Shared)
    requires Inv(stamp, s)
    decreases |steps|
    ensures Inv(stamp, r) && |r.threads| == |s.threads|
  {
    if steps == [] then s
    else
      StepKeepsInv(stamp, s, steps[0]);
      Run(stamp, Apply(stamp, s, steps[0]), steps[1..])
  }

  /** Under every interleaving of loads, rebuilds and stores, each header is the uncached rendering. */
  lemma EveryHeaderIsUncached(stamp: Stamp, n: nat, steps: seq<Step>, t: nat)
    requires StampOk(stamp) && t < n
    ensures var s := Shared(seq(7, _ => None), None, seq(n, _ => Idle));
            && Inv(stamp, s)
            && var th := Run(stamp, s, steps).threads[t];
            (th.Returned? ==> th.text == Header(stamp, th.prec, th.nanos, th.level))
  {
    var s := Shared(seq(7, _ => None), None, seq(n, _ => Idle));
    assert ThreadOk(stamp, Run(stamp, s, steps).threads[t]);
  }
}
