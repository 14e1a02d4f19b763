/** JSON string bodies: the word-at-a-time escape detector, the escaper, and the decoder that undoes it. */
module JsonString {
  import opened Bytes
  import opened TimeHeader

  const QUOTE: bv8 := 0x22
  const BACKSLASH: bv8 := 0x5c

  function HexDigit(n: bv8): bv8 {
    if n < 10 then 0x30 + n else 0x61 + n - 10
  }

  /** The escape of one byte. */
  function EscapeByte(c: bv8): bytes {
    if c == BACKSLASH then [BACKSLASH, BACKSLASH]
    else if c == QUOTE then [BACKSLASH, QUOTE]
    else if c == 0x0a then [BACKSLASH, 0x6e]
    else if c == 0x09 then [BACKSLASH, 0x74]
    else if c == 0x0d then [BACKSLASH, 0x72]
    else if c < 0x20 then [BACKSLASH, 0x75, 0x30, 0x30, HexDigit(c >> 4), HexDigit(c & 0xf)]
    else [c]
  }

  /** The body of the JSON string for s, one byte at a time. */
  function Escape(s: bytes): bytes {
    if s == [] then [] else EscapeByte(s[0]) + Escape(s[1..])
  }

  lemma {:induction false} EscapeConcat(a: bytes, b: bytes)
    ensures Escape(a + b) == Escape(a) + Escape(b)
  {
    if a == [] {
      assert a + b == b;
    } else {
      assert (a + b)[1..] == a[1..] + b;
      EscapeConcat(a[1..], b);
    }
  }

  lemma {:induction false} EscapeClean(s: bytes)
    requires AllClean(s)
    ensures Escape(s) == s
  {
    if s != [] {
      EscapeClean(s[1..]);
      assert NoEscape(s[0]);
    }
  }

  // ---- The word-at-a-time detector ----

  function JsonEscapeMask(w: bv64): bv64 {
    var ones: bv64 := 0x0101010101010101;
    var highs: bv64 := 0x8080808080808080;
    var below := (w - ones * 0x20) & !w & highs;
    var q := w ^ (ones * 0x22);
    var quote := (q - ones) & !q & highs;
    var b := w ^ (ones * 0x5c);
    var backslash := (b - ones) & !b & highs;
    below | quote | backslash
  }

  /** The little-endian word of eight bytes. */
  function WordOf(a: bv8, b: bv8, c: bv8, d: bv8, e: bv8, f: bv8, g: bv8, h: bv8): bv64 {
    (a as bv64) | ((b as bv64) << 8) | ((c as bv64) << 16) | ((d as bv64) << 24) |
    ((e as bv64) << 32) | ((f as bv64) << 40) | ((g as bv64) << 48) | ((h as bv64) << 56)
  }

  function Word(s: bytes): bv64
    requires |s| == 8
  {
    WordOf(s[0], s[1], s[2], s[3], s[4], s[5], s[6], s[7])
  }

  predicate CleanEight(a: bv8, b: bv8, c: bv8, d: bv8, e: bv8, f: bv8, g: bv8, h: bv8) {
    NoEscape(a) && NoEscape(b) && NoEscape(c) && NoEscape(d) && NoEscape(e) && NoEscape(f) && NoEscape(g) && NoEscape(h)
  }

  lemma MaskLanes(a: bv8, b: bv8, c: bv8, d: bv8, e: bv8, f: bv8, g: bv8, h: bv8)
    ensures JsonEscapeMask(WordOf(a, b, c, d, e, f, g, h)) == 0 <==> CleanEight(a, b, c, d, e, f, g, h)
  {
  }

  lemma EightAre(s: bytes)
    requires |s| == 8
    ensures AllClean(s) <==> CleanEight(s[0], s[1], s[2], s[3], s[4], s[5], s[6], s[7])
  {
  }

  /** The mask is nonzero exactly when some byte of the word needs escaping. */
  lemma MaskExact(s: bytes)
    requires |s| == 8
    ensures JsonEscapeMask(Word(s)) == 0 <==> AllClean(s)
  {
    MaskLanes(s[0], s[1], s[2], s[3], s[4], s[5], s[6], s[7]);
    EightAre(s);
  }

  lemma CleanPrefixEscape(s: bytes, start: nat)
    requires start <= |s| && AllClean(s[..start])
    ensures Escape(s) == s[..start] + Escape(s[start..])
  {
    assert s == s[..start] + s[start..];
    EscapeConcat(s[..start], s[start..]);
    EscapeClean(s[..start]);
  }

  lemma CleanGrows(s: bytes, i: nat, j: nat)
    requires i <= j <= |s| && AllClean(s[..i]) && AllClean(s[i..j])
    ensures AllClean(s[..j])
  {
    assert s[..j] == s[..i] + s[i..j];
  }

  /** Appends the string body: whole words while they are clean, then bytes, then the exact escaper. */
  method AppendJSONString(dst: bytes, s: bytes) returns (r: bytes)
    ensures r == dst + Escape(s)
  {
    var i, n := 0, |s|;
    while i + 8 <= n
      invariant 0 <= i <= n && AllClean(s[..i])
    {
      var w := Word(s[i..i + 8]);
      MaskExact(s[i..i + 8]);
      if JsonEscapeMask(w) != 0 {
        r := EscapeFrom(dst, s, i);
        return;
      }
      CleanGrows(s, i, i + 8);
      i := i + 8;
    }
    r := AppendTail(dst, s, i);
  }

  /** The bytes after the last whole word, one by one. */
  method AppendTail(dst: bytes, s: bytes, start: nat) returns (r: bytes)
    requires start <= |s| && AllClean(s[..start])
    ensures r == dst + Escape(s)
  {
    for i := start to |s|
      invariant AllClean(s[..i])
    {
      if !NoEscape(s[i]) {
        r := EscapeFrom(dst, s, i);
        return;
      }
      CleanGrows(s, i, i + 1);
    }
    assert s[..|s|] == s;
    EscapeClean(s);
    r := dst + s;
  }

  /** The exact escaper takes over where the clean prefix ends. */
  method EscapeFrom(dst: bytes, s: bytes, i: nat) returns (r: bytes)
    requires i <= |s| && AllClean(s[..i])
    ensures r == dst + Escape(s)
  {
    CleanPrefixEscape(s, i);
    r := AppendJSONEscaped(dst, s, i);
  }

  lemma EscapeSnoc(s: bytes, c: bv8)
    ensures Escape(s + [c]) == Escape(s) + EscapeByte(c)
  {
    EscapeConcat(s, [c]);
    assert [c][1..] == [];
    assert Escape([c]) == EscapeByte(c) + [];
  }

  method AppendEscapedByte(dst: bytes, c: bv8) returns (r: bytes)
    ensures r == dst + EscapeByte(c)
  {
    if c == 0x5c {
      r := dst + [0x5c, 0x5c];
    } else if c == 0x22 {
      r := dst + [0x5c, 0x22];
    } else if c == 0x0a {
      r := dst + [0x5c, 0x6e];
    } else if c == 0x09 {
      r := dst + [0x5c, 0x74];
    } else if c == 0x0d {
      r := dst + [0x5c, 0x72];
    } else if c < 0x20 {
      r := dst + [0x5c, 0x75, 0x30, 0x30, HexDigit(c >> 4), HexDigit(c & 0xf)];
    } else {
      r := dst + [c];
    }
  }

  /** Copies the prefix verbatim and escapes the rest byte by byte. */
  method AppendJSONEscaped(dst: bytes, s: bytes, start: nat) returns (r: bytes)
    requires start <= |s|
    ensures r == dst + s[..start] + Escape(s[start..])
  {
    var remaining := s[start..];
    ghost var base := dst + s[..start];
    r := dst + s[..start];
    for i := 0 to |remaining|
      invariant r == base + Escape(remaining[..i])
    {
      EscapeSnoc(remaining[..i], remaining[i]);
      assert remaining[..i + 1] == remaining[..i] + [remaining[i]];
      r := AppendEscapedByte(r, remaining[i]);
    }
    assert remaining[..|remaining|] == remaining;
  }

  // ---- Decoding, section 7 of RFC 8259 ----

  predicate IsHex(b: bv8) {
    0x30 <= b <= 0x39 || 0x41 <= b <= 0x46 || 0x61 <= b <= 0x66
  }

  function HexVal(b: bv8): bv16 {
    if b <= 0x39 then (b - 0x30) as bv16
    else if b <= 0x46 then (b - 0x41 + 10) as bv16
    else (b - 0x61 + 10) as bv16
  }

  /** UTF-8 of one code unit; a lone surrogate has none. */
  function Utf8(code: bv16): Option<bytes> {
    if code < 0x80 then Some([(code & 0x7f) as bv8])
    else if code < 0x800 then Some([0xc0 | ((code >> 6) & 0x1f) as bv8, 0x80 | (code & 0x3f) as bv8])
    else if 0xd800 <= code <= 0xdfff then None
    else Some([0xe0 | ((code >> 12) & 0xf) as bv8, 0x80 | ((code >> 6) & 0x3f) as bv8, 0x80 | (code & 0x3f) as bv8])
  }

  /** One character of a string body: its bytes and how much input it took. */
  function DecodeChar(s: bytes): (r: Option<(bytes, nat)>)
    requires s != []
    ensures r.Some? ==> 1 <= r.value.1 <= |s|
  {
    if s[0] < 0x20 || s[0] == QUOTE then None
    else if s[0] != BACKSLASH then Some(([s[0]], 1))
    else if |s| < 2 then None
    else if s[1] == QUOTE || s[1] == BACKSLASH || s[1] == 0x2f then Some(([s[1]], 2))
    else if s[1] == 0x62 then Some(([0x08], 2))
    else if s[1] == 0x66 then Some(([0x0c], 2))
    else if s[1] == 0x6e then Some(([0x0a], 2))
    else if s[1] == 0x72 then Some(([0x0d], 2))
    else if s[1] == 0x74 then Some(([0x09], 2))
    else if s[1] != 0x75 || |s| < 6 || !IsHex(s[2]) || !IsHex(s[3]) || !IsHex(s[4]) || !IsHex(s[5]) then None
    else
      var code := (HexVal(s[2]) << 12) | (HexVal(s[3]) << 8) | (HexVal(s[4]) << 4) | HexVal(s[5]);
      match Utf8(code) case None => None case Some(b) => Some((b, 6))
  }

  /** Reads a string body up to its closing quote: the text, and the input after the quote. */
  function ParseBody(s: bytes): (r: Option<(bytes, bytes)>)
    ensures r.Some? ==> |r.value.1| < |s|
    decreases |s|
  {
    if s == [] then None
    else if s[0] == QUOTE then Some(([], s[1..]))
    else
      match DecodeChar(s)
      case None => None
      case Some(c) =>
        match ParseBody(s[c.1..])
        case None => None
        case Some(t) => Some((c.0 + t.0, t.1))
  }

  lemma HexRoundTrip(c: bv8)
    requires c < 0x20
    ensures var h, l := HexDigit(c >> 4), HexDigit(c & 0xf);
            && IsHex(h) && IsHex(l)
            && (HexVal(0x30) << 12) | (HexVal(0x30) << 8) | (HexVal(h) << 4) | HexVal(l) == c as bv16
            && Utf8(c as bv16) == Some([c])
  {
  }

  lemma DecodeEscapedByte(c: bv8, rest: bytes)
    ensures EscapeByte(c) != [] && EscapeByte(c)[0] != QUOTE
    ensures DecodeChar(EscapeByte(c) + rest) == Some(([c], |EscapeByte(c)|))
  {
    if c < 0x20 {
      HexRoundTrip(c);
    }
  }

  /** The decoder undoes the escaper for every byte string, and stops at the closing quote. */
  lemma {:induction false} EscapeDecodes(s: bytes, rest: bytes)
    ensures ParseBody(Escape(s) + [QUOTE] + rest) == Some((s, rest))
  {
    var text := Escape(s) + [QUOTE] + rest;
    if s == [] {
      assert text[1..] == rest;
    } else {
      var tail := Escape(s[1..]) + [QUOTE] + rest;
      assert text == EscapeByte(s[0]) + tail;
      DecodeEscapedByte(s[0], tail);
      assert text[|EscapeByte(s[0])|..] == tail;
      EscapeDecodes(s[1..], rest);
      assert [s[0]] + s[1..] == s;
    }
  }

  lemma EscapeByteVisible(c: bv8)
    ensures forall k :: 0 <= k < |EscapeByte(c)| ==> EscapeByte(c)[k] >= 0x20
  {
  }

  /** An escaped body has no control byte, so it can never end a line early. */
  lemma {:induction false} EscapeVisible(s: bytes)
    ensures forall k :: 0 <= k < |Escape(s)| ==> Escape(s)[k] >= 0x20
  {
    if s != [] {
      EscapeByteVisible(s[0]);
      EscapeVisible(s[1..]);
    }
  }
}
