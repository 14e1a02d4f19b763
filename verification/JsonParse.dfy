/** A reader for one JSON line, and the proof that it undoes the encoder on every entry. */
module JsonParse {
  import opened Bytes
  import opened Sequences
  import opened Types
  import opened TimeHeader
  import opened JsonString
  import opened Json

  datatype JValue = JString(s: bytes) | JNumber(text: bytes) | JBool(b: bool) | JNull

  datatype Member = Member(key: bytes, value: JValue)

  predicate NumberChar(b: bv8) {
    IsDigit(b) || b == 0x2d || b == 0x2b || b == 0x2e || b == 0x65 || b == 0x45
  }

  /** The longest prefix of number characters. */
  function NumberToken(s: bytes): (r: bytes)
    ensures |r| <= |s|
  {
    if s == [] || !NumberChar(s[0]) then [] else [s[0]] + NumberToken(s[1..])
  }

  predicate StartsWith(s: bytes, prefix: bytes) {
    |prefix| <= |s| && s[..|prefix|] == prefix
  }

  function ParseValue(s: bytes): (r: Option<(JValue, bytes)>)
    ensures r.Some? ==> |r.value.1| < |s|
  {
    if s == [] then None
    else if s[0] == QUOTE then
      (match ParseBody(s[1..]) case None => None case Some(b) => Some((JString(b.0), b.1)))
    else if StartsWith(s, [0x74, 0x72, 0x75, 0x65]) then Some((JBool(true), s[4..]))
    else if StartsWith(s, [0x66, 0x61, 0x6c, 0x73, 0x65]) then Some((JBool(false), s[5..]))
    else if StartsWith(s, [0x6e, 0x75, 0x6c, 0x6c]) then Some((JNull, s[4..]))
    else
      var token := NumberToken(s);
      if token == [] then None else Some((JNumber(token), s[|token|..]))
  }

  /** One `"key":value` pair. */
  function ParsePair(s: bytes): (r: Option<(Member, bytes)>)
    ensures r.Some? ==> |r.value.1| < |s|
  {
    if s == [] || s[0] != QUOTE then None
    else
      match ParseBody(s[1..])
      case None => None
      case Some(k) =>
        if k.1 == [] || k.1[0] != 0x3a then None
        else
          match ParseValue(k.1[1..])
          case None => None
          case Some(v) => Some((Member(k.0, v.0), v.1))
  }

  /** Comma-separated pairs up to the closing brace, which must be followed by one newline and nothing else. */
  function ParseMore(s: bytes): Option<seq<Member>>
    decreases |s|
  {
    if s == CLOSER then Some([])
    else if s == [] || s[0] != 0x2c then None
    else
      match ParsePair(s[1..])
      case None => None
      case Some(m) =>
        match ParseMore(m.1)
        case None => None
        case Some(ms) => Some([m.0] + ms)
  }

  /** A whole line: one object and its newline. */
  function ParseLine(s: bytes): Option<seq<Member>> {
    if s == [] || s[0] != 0x7b then None
    else
      match ParsePair(s[1..])
      case None => None
      case Some(m) =>
        match ParseMore(m.1)
        case None => None
        case Some(ms) => Some([m.0] + ms)
  }

  // ---- What an entry says ----

  function FloatJson(f: Float): JValue {
    match f
    case NaN => JString(NAN_TEXT)
    case PosInf => JString(POS_INF_TEXT)
    case NegInf => JString(NEG_INF_TEXT)
    case Finite(text) => JNumber(text)
  }

  function AnyJson(v: Any): JValue {
    match v
    case Nil => JNull
    case AString(s) => JString(s)
    case ABool(b) => JBool(b)
    case AInt(i) => JNumber(IntText(i))
    case AUint(u) => JNumber(NatText(u))
    case AFloat(f) => FloatJson(f)
    case AError(text) => JString(text)
    case AOther(printed) => JString(printed)
  }

  function ValueJson(v: FieldValue, legacy: Any): JValue {
    match v.kind
    case KindString => JString(v.str)
    case KindInt => JNumber(IntText(v.int64))
    case KindInt64 => JNumber(IntText(v.int64))
    case KindFloat64 => FloatJson(v.float64)
    case KindBool => JBool(v.int64 != 0)
    case KindError => JString(ErrorText(v))
    case KindAny => AnyJson(v.any)
    case KindUnknown => AnyJson(legacy)
  }

  /** The key a field is emitted under. */
  function KeyOf(f: TypedFieldData): bytes {
    if f.keyDesc.Some? && |f.keyDesc.value.jsonFragment| > 0 then f.keyDesc.value.name else f.key
  }

  /** A finite float's text uses number characters only, which strconv guarantees. */
  predicate FloatOk(f: Float) {
    f.Finite? ==> |f.text| > 0 && forall k :: 0 <= k < |f.text| ==> NumberChar(f.text[k])
  }

  predicate AnyOk(v: Any) {
    v.AFloat? ==> FloatOk(v.f)
  }

  /** A pre-declared key carries the fragment of its own name, as its constructor makes it. */
  predicate KeyDescOk(kd: Option<FieldKey>) {
    kd.Some? && |kd.value.jsonFragment| > 0 ==> kd.value.jsonFragment == PlainPrefix(kd.value.name)
  }

  predicate FieldOk(f: TypedFieldData) {
    KeyDescOk(f.keyDesc) && FloatOk(f.val.float64) && AnyOk(f.val.any) && AnyOk(f.value)
  }

  predicate FieldsOk(fs: seq<TypedFieldData>) {
    forall k :: 0 <= k < |fs| ==> FieldOk(fs[k])
  }

  function FieldMembers(fs: seq<TypedFieldData>): seq<Member> {
    if fs == [] then [] else [Member(KeyOf(fs[0]), ValueJson(fs[0].val, fs[0].value))] + FieldMembers(fs[1..])
  }

  // caller, time, level, message
  const CALLER_KEY: bytes := [0x63, 0x61, 0x6c, 0x6c, 0x65, 0x72]
  const TIME_KEY: bytes := [0x74, 0x69, 0x6d, 0x65]
  const LEVEL_KEY: bytes := [0x6c, 0x65, 0x76, 0x65, 0x6c]
  const MESSAGE_KEY: bytes := [0x6d, 0x65, 0x73, 0x73, 0x61, 0x67, 0x65]

  function CallerMembers(file: bytes, line: int): seq<Member> {
    if line >= 0 && file != [] then
      [Member(CALLER_KEY, JString(BaseName(file) + [0x3a] + IntText(line)))]
    else []
  }

  /** Every member of an entry's line, in order. */
  function EntryMembers(stamp: Stamp, prec: Precision, e: LogEntry): seq<Member> {
    [Member(TIME_KEY, JString(TimeText(stamp, prec, EntryUnixNanos(e)))),
     Member(LEVEL_KEY, JString(LevelName(ClampLevel(e.level)))),
     Member(MESSAGE_KEY, JString(e.message))]
    + CallerMembers(e.file, e.line) + FieldMembers(AllFields(e))
  }

  // ---- Reading back one value ----

  lemma {:induction false} NumberTokenOf(text: bytes, rest: bytes)
    requires forall k :: 0 <= k < |text| ==> NumberChar(text[k])
    requires rest != [] && !NumberChar(rest[0])
    ensures NumberToken(text + rest) == text
  {
    if text == [] {
      assert text + rest == rest;
    } else {
      assert (text + rest)[1..] == text[1..] + rest;
      NumberTokenOf(text[1..], rest);
    }
  }

  predicate EndsValue(rest: bytes) {
    rest != [] && (rest[0] == 0x2c || rest[0] == 0x7d)
  }

  lemma QuotedReads(s: bytes, rest: bytes)
    ensures ParseValue(Quoted(s) + rest) == Some((JString(s), rest))
  {
    var text := Quoted(s) + rest;
    assert text[1..] == Escape(s) + [QUOTE] + rest;
    EscapeDecodes(s, rest);
  }

  lemma NumberReads(text: bytes, rest: bytes)
    requires |text| > 0 && forall k :: 0 <= k < |text| ==> NumberChar(text[k])
    requires EndsValue(rest)
    ensures ParseValue(text + rest) == Some((JNumber(text), rest))
  {
    NumberTokenOf(text, rest);
    assert (text + rest)[0] == text[0];
    assert NumberChar((text + rest)[0]);
    assert (text + rest)[|text|..] == rest;
  }

  lemma WordReads(rest: bytes)
    ensures ParseValue(TRUE_TEXT + rest) == Some((JBool(true), rest))
    ensures ParseValue(FALSE_TEXT + rest) == Some((JBool(false), rest))
    ensures ParseValue(NULL_TEXT + rest) == Some((JNull, rest))
  {
    assert TRUE_TEXT == [0x74, 0x72, 0x75, 0x65];
    assert FALSE_TEXT == [0x66, 0x61, 0x6c, 0x73, 0x65];
    assert NULL_TEXT == [0x6e, 0x75, 0x6c, 0x6c];
    assert (TRUE_TEXT + rest)[..4] == TRUE_TEXT && (TRUE_TEXT + rest)[4..] == rest;
    assert (FALSE_TEXT + rest)[..5] == FALSE_TEXT && (FALSE_TEXT + rest)[5..] == rest;
    assert (NULL_TEXT + rest)[..4] == NULL_TEXT && (NULL_TEXT + rest)[4..] == rest;
  }

  lemma IntReads(i: int, rest: bytes)
    requires EndsValue(rest)
    ensures ParseValue(IntText(i) + rest) == Some((JNumber(IntText(i)), rest))
  {
    IntTextParses(i);
    NumberReads(IntText(i), rest);
  }

  lemma FloatReads(f: Float, rest: bytes)
    requires FloatOk(f) && EndsValue(rest)
    ensures ParseValue(FloatText(f) + rest) == Some((FloatJson(f), rest))
  {
    match f
    case Finite(text) => NumberReads(text, rest);
    case NaN => CleanQuotedReads(NAN_TEXT, rest);
    case PosInf => CleanQuotedReads(POS_INF_TEXT, rest);
    case NegInf => CleanQuotedReads(NEG_INF_TEXT, rest);
  }

  lemma CleanQuotedReads(s: bytes, rest: bytes)
    requires AllClean(s)
    ensures ParseValue([QUOTE] + s + [QUOTE] + rest) == Some((JString(s), rest))
  {
    EscapeClean(s);
    QuotedReads(s, rest);
  }

  lemma AnyReads(v: Any, rest: bytes)
    requires AnyOk(v) && EndsValue(rest)
    ensures ParseValue(AnyText(v) + rest) == Some((AnyJson(v), rest))
  {
    match v
    case Nil => WordReads(rest);
    case AString(s) => QuotedReads(s, rest);
    case ABool(b) => WordReads(rest);
    case AInt(i) => IntReads(i, rest);
    case AUint(u) => IntReads(u, rest);
    case AFloat(f) => FloatReads(f, rest);
    case AError(text) => QuotedReads(text, rest);
    case AOther(printed) => QuotedReads(printed, rest);
  }

  lemma ValueReads(v: FieldValue, legacy: Any, rest: bytes)
    requires FloatOk(v.float64) && AnyOk(v.any) && AnyOk(legacy) && EndsValue(rest)
    ensures ParseValue(ValueText(v, legacy) + rest) == Some((ValueJson(v, legacy), rest))
  {
    match v.kind
    case KindString => QuotedReads(v.str, rest);
    case KindInt => IntReads(v.int64, rest);
    case KindInt64 => IntReads(v.int64, rest);
    case KindFloat64 => FloatReads(v.float64, rest);
    case KindBool => WordReads(rest);
    case KindError => QuotedReads(ErrorText(v), rest);
    case KindAny => AnyReads(v.any, rest);
    case KindUnknown => AnyReads(legacy, rest);
  }

  // ---- Reading back a line ----

  lemma PairSplit(key: bytes, value: bytes, rest: bytes)
    ensures Quoted(key) + [0x3a] + value + rest == [QUOTE] + (Escape(key) + [QUOTE] + ([0x3a] + value + rest))
  {
  }

  lemma AfterColon(value: bytes, rest: bytes)
    ensures ([0x3a] + value + rest)[0] == 0x3a && ([0x3a] + value + rest)[1..] == value + rest
  {
  }

  lemma PairReads(key: bytes, value: bytes, v: JValue, rest: bytes)
    requires ParseValue(value + rest) == Some((v, rest))
    ensures ParsePair(Quoted(key) + [0x3a] + value + rest) == Some((Member(key, v), rest))
  {
    var text := Quoted(key) + [0x3a] + value + rest;
    var after := [0x3a] + value + rest;
    PairSplit(key, value, rest);
    assert text[1..] == Escape(key) + [QUOTE] + after;
    EscapeDecodes(key, after);
    AfterColon(value, rest);
  }

  lemma CommaReads(s: bytes)
    requires ParsePair(s).Some? && ParseMore(ParsePair(s).value.1).Some?
    ensures ParseMore([0x2c] + s) == Some([ParsePair(s).value.0] + ParseMore(ParsePair(s).value.1).value)
  {
    var text := [0x2c] + s;
    assert text[0] == 0x2c && text[1..] == s;
    assert CLOSER[0] == 0x7d;
  }

  lemma PrefixSplit(q: bytes, value: bytes, rest: bytes)
    ensures [0x2c] + q + [0x3a] + value + rest == [0x2c] + (q + [0x3a] + value + rest)
  {
  }

  lemma MoreReads(key: bytes, value: bytes, v: JValue, rest: bytes)
    requires ParseValue(value + rest) == Some((v, rest))
    requires ParseMore(rest).Some?
    ensures ParseMore(PlainPrefix(key) + value + rest) == Some([Member(key, v)] + ParseMore(rest).value)
  {
    PairReads(key, value, v, rest);
    CommaReads(Quoted(key) + [0x3a] + value + rest);
    PrefixSplit(Quoted(key), value, rest);
  }

  lemma MoreEndsValue(rest: bytes)
    requires ParseMore(rest).Some?
    ensures EndsValue(rest)
  {
    assert CLOSER[0] == 0x7d;
  }

  lemma FieldTextSplit(f: TypedFieldData, rest: bytes)
    requires FieldOk(f)
    ensures FieldText(f) + rest == PlainPrefix(KeyOf(f)) + ValueText(f.val, f.value) + rest
  {
  }

  lemma ConsMembers(m: Member, a: seq<Member>, b: seq<Member>)
    ensures [m] + (a + b) == ([m] + a) + b
  {
  }

  /** The rendered fields read back as their keys and values, in order. */
  lemma {:induction false} FieldsRead(fs: seq<TypedFieldData>, rest: bytes)
    requires FieldsOk(fs)
    requires ParseMore(rest).Some?
    ensures ParseMore(FieldsText(fs) + rest) == Some(FieldMembers(fs) + ParseMore(rest).value)
  {
    if fs == [] {
      assert FieldsText(fs) + rest == rest;
      assert FieldMembers(fs) + ParseMore(rest).value == ParseMore(rest).value;
    } else {
      var f, tail := fs[0], FieldsText(fs[1..]) + rest;
      FieldsRead(fs[1..], rest);
      MoreEndsValue(tail);
      ValueReads(f.val, f.value, tail);
      MoreReads(KeyOf(f), ValueText(f.val, f.value), ValueJson(f.val, f.value), tail);
      Assoc(FieldText(f), FieldsText(fs[1..]), rest);
      FieldTextSplit(f, tail);
      ConsMembers(Member(KeyOf(f), ValueJson(f.val, f.value)), FieldMembers(fs[1..]), ParseMore(rest).value);
    }
  }

  lemma IntTextClean(i: int)
    ensures AllClean(IntText(i))
  {
    IntTextParses(i);
    forall k | 0 <= k < |IntText(i)|
      ensures NoEscape(IntText(i)[k])
    {
      DigitClean(IntText(i)[k]);
    }
  }

  lemma DigitClean(b: bv8)
    ensures IsDigit(b) || b == 0x2d ==> NoEscape(b)
  {
  }

  lemma CallerBody(base: bytes, line: int)
    ensures Escape(base + [0x3a] + IntText(line)) == Escape(base) + [0x3a] + IntText(line)
  {
    EscapeConcat(base + [0x3a], IntText(line));
    EscapeSnoc(base, 0x3a);
    IntTextClean(line);
    EscapeClean(IntText(line));
  }

  lemma KeyOpen(key: bytes)
    requires AllClean(key)
    ensures PlainPrefix(key) + [QUOTE] == [0x2c, 0x22] + key + [0x22, 0x3a, 0x22]
  {
    EscapeClean(key);
  }

  lemma CallerOpen()
    ensures CALLER_OPEN == PlainPrefix(CALLER_KEY) + [QUOTE]
  {
    KeyOpen(CALLER_KEY);
  }

  lemma CallerSplit(file: bytes, line: int)
    ensures CallerText(file, line) == PlainPrefix(CALLER_KEY) + Quoted(BaseName(file) + [0x3a] + IntText(line))
  {
    CallerBody(BaseName(file), line);
    CallerOpen();
    CallerRegroup(PlainPrefix(CALLER_KEY), Escape(BaseName(file)), IntText(line));
  }

  lemma CallerRegroup(p: bytes, base: bytes, line: bytes)
    ensures p + [QUOTE] + base + [0x3a] + line + [QUOTE] == p + ([QUOTE] + (base + [0x3a] + line) + [QUOTE])
  {
  }

  lemma CallerReads(file: bytes, line: int, rest: bytes)
    requires ParseMore(rest).Some?
    ensures ParseMore(CallerPart(file, line) + rest) == Some(CallerMembers(file, line) + ParseMore(rest).value)
  {
    if line >= 0 && file != [] {
      var site := BaseName(file) + [0x3a] + IntText(line);
      QuotedReads(site, rest);
      MoreReads(CALLER_KEY, Quoted(site), JString(site), rest);
      CallerSplit(file, line);
    } else {
      assert CallerPart(file, line) + rest == rest;
      assert CallerMembers(file, line) + ParseMore(rest).value == ParseMore(rest).value;
    }
  }

  lemma TimeTextClean(stamp: Stamp, prec: Precision, nanos: int)
    requires StampOk(stamp)
    ensures AllClean(TimeText(stamp, prec, nanos))
  {
    var (sec, rest) := SplitUnixNanos(nanos);
    var t := stamp(sec);
    if prec != PrecisionSecond {
      FracDigitsParse(rest / FracUnit(prec), FracWidth(prec));
      CleanConcat(t[..19], [0x2e]);
      CleanConcat(t[..19] + [0x2e], FracDigits(rest / FracUnit(prec), FracWidth(prec)));
      CleanConcat(t[..19] + [0x2e] + FracDigits(rest / FracUnit(prec), FracWidth(prec)), t[19..]);
    }
  }

  lemma CleanConcat(a: bytes, b: bytes)
    requires AllClean(a) && AllClean(b)
    ensures AllClean(a + b)
  {
  }

  lemma LevelOpen()
    ensures LEVEL_OPEN == PlainPrefix(LEVEL_KEY) + [QUOTE]
  {
    KeyOpen(LEVEL_KEY);
  }

  lemma MessageOpen()
    ensures MESSAGE_OPEN == PlainPrefix(MESSAGE_KEY) + [QUOTE]
  {
    KeyOpen(MESSAGE_KEY);
  }

  lemma TimeOpen()
    ensures TIME_OPEN == [0x7b] + Quoted(TIME_KEY) + [0x3a] + [QUOTE]
  {
    EscapeClean(TIME_KEY);
  }

  function AfterTime(level: bytes, msg: bytes, tail: bytes): bytes {
    PlainPrefix(LEVEL_KEY) + Quoted(level) + (PlainPrefix(MESSAGE_KEY) + Quoted(msg) + tail)
  }

  lemma HeaderSplit(time: bytes, level: nat, msg: bytes, tail: bytes)
    requires AllClean(time)
    ensures HeaderAround(time, level) + MESSAGE_OPEN + Escape(msg) + [QUOTE] + tail
         == [0x7b] + (Quoted(TIME_KEY) + [0x3a] + Quoted(time) + AfterTime(LevelName(level), msg, tail))
  {
    TimeOpen();
    LevelOpen();
    MessageOpen();
    EscapeClean(time);
    EscapeClean(LevelName(level));
    HeaderRegroup(Quoted(TIME_KEY), time, PlainPrefix(LEVEL_KEY), LevelName(level), PlainPrefix(MESSAGE_KEY),
                  Escape(msg), tail);
  }

  lemma HeaderRegroup(q: bytes, t: bytes, pl: bytes, l: bytes, pm: bytes, m: bytes, tail: bytes)
    ensures ([0x7b] + q + [0x3a] + [QUOTE]) + t + [0x22] + (pl + [QUOTE] + l + [0x22])
            + (pm + [QUOTE]) + m + [QUOTE] + tail
         == [0x7b] + (q + [0x3a] + ([QUOTE] + t + [QUOTE])
                      + (pl + ([QUOTE] + l + [QUOTE]) + (pm + ([QUOTE] + m + [QUOTE]) + tail)))
  {
    var inner := pm + ([QUOTE] + m + [QUOTE]) + tail;
    assert (pm + [QUOTE]) + m + [QUOTE] + tail == inner;
    var mid := pl + ([QUOTE] + l + [QUOTE]) + inner;
    assert (pl + [QUOTE] + l + [0x22]) + inner == mid;
  }

  lemma AfterTimeReads(level: bytes, msg: bytes, tail: bytes)
    requires ParseMore(tail).Some?
    ensures ParseMore(AfterTime(level, msg, tail))
         == Some([Member(LEVEL_KEY, JString(level))] + ([Member(MESSAGE_KEY, JString(msg))] + ParseMore(tail).value))
  {
    QuotedReads(msg, tail);
    MoreReads(MESSAGE_KEY, Quoted(msg), JString(msg), tail);
    var afterLevel := PlainPrefix(MESSAGE_KEY) + Quoted(msg) + tail;
    QuotedReads(level, afterLevel);
    MoreReads(LEVEL_KEY, Quoted(level), JString(level), afterLevel);
  }

  lemma BraceReads(body: bytes)
    requires ParsePair(body).Some? && ParseMore(ParsePair(body).value.1).Some?
    ensures ParseLine([0x7b] + body) == Some([ParsePair(body).value.0] + ParseMore(ParsePair(body).value.1).value)
  {
    assert ([0x7b] + body)[0] == 0x7b && ([0x7b] + body)[1..] == body;
  }

  lemma HeaderReads(time: bytes, level: nat, msg: bytes, tail: bytes)
    requires AllClean(time) && ParseMore(tail).Some?
    ensures ParseLine(HeaderAround(time, level) + MESSAGE_OPEN + Escape(msg) + [QUOTE] + tail)
         == Some([Member(TIME_KEY, JString(time))] + ([Member(LEVEL_KEY, JString(LevelName(level)))]
                 + ([Member(MESSAGE_KEY, JString(msg))] + ParseMore(tail).value)))
  {
    HeaderSplit(time, level, msg, tail);
    var afterTime := AfterTime(LevelName(level), msg, tail);
    AfterTimeReads(LevelName(level), msg, tail);
    QuotedReads(time, afterTime);
    PairReads(TIME_KEY, Quoted(time), JString(time), afterTime);
    BraceReads(Quoted(TIME_KEY) + [0x3a] + Quoted(time) + afterTime);
  }

  /**
   * Every entry's line reads back as exactly the entry's members: no message, key or value, however
   * hostile its bytes, adds, drops or splits a member.
   */
  lemma LineReads(stamp: Stamp, prec: Precision, e: LogEntry)
    requires StampOk(stamp) && FieldsOk(AllFields(e))
    ensures ParseLine(LineText(stamp, prec, e)) == Some(EntryMembers(stamp, prec, e))
  {
    var time := TimeText(stamp, prec, EntryUnixNanos(e));
    var level := ClampLevel(e.level);
    TimeTextClean(stamp, prec, EntryUnixNanos(e));
    var fields := FieldsText(AllFields(e)) + CLOSER;
    FieldsRead(AllFields(e), CLOSER);
    CallerReads(e.file, e.line, fields);
    var tail := CallerPart(e.file, e.line) + fields;
    HeaderReads(time, level, e.message, tail);
    var h := HeaderAround(time, level) + MESSAGE_OPEN + Escape(e.message) + [QUOTE];
    TailRegroup(h, CallerPart(e.file, e.line), FieldsText(AllFields(e)), CLOSER);
    assert FieldMembers(AllFields(e)) + [] == FieldMembers(AllFields(e));
    MembersRegroup(Member(TIME_KEY, JString(time)), Member(LEVEL_KEY, JString(LevelName(level))),
                   Member(MESSAGE_KEY, JString(e.message)), CallerMembers(e.file, e.line), FieldMembers(AllFields(e)));
  }

  lemma TailRegroup(h: bytes, c: bytes, f: bytes, z: bytes)
    ensures h + c + f + z == h + (c + (f + z))
  {
  }

  lemma MembersRegroup(x: Member, y: Member, z: Member, b: seq<Member>, c: seq<Member>)
    ensures [x] + ([y] + ([z] + (b + c))) == [x, y, z] + b + c
  {
  }

  // ---- One entry, one line ----

  predicate Visible(s: bytes) {
    forall k :: 0 <= k < |s| ==> s[k] >= 0x20
  }

  lemma VisibleConcat(a: bytes, b: bytes)
    requires Visible(a) && Visible(b)
    ensures Visible(a + b)
  {
  }

  lemma VisibleQuoted(s: bytes)
    ensures Visible(Quoted(s))
  {
    EscapeVisible(s);
  }

  lemma NumberCharVisible(b: bv8)
    ensures NumberChar(b) ==> b >= 0x20
  {
  }

  lemma VisibleFloat(f: Float)
    requires FloatOk(f)
    ensures Visible(FloatText(f))
  {
    if f.Finite? {
      forall k | 0 <= k < |f.text| ensures f.text[k] >= 0x20 { NumberCharVisible(f.text[k]); }
    }
  }

  lemma VisibleAny(v: Any)
    requires AnyOk(v)
    ensures Visible(AnyText(v))
  {
    match v
    case Nil =>
    case AString(s) => VisibleQuoted(s);
    case ABool(b) =>
    case AInt(i) => IntTextClean(i);
    case AUint(u) => IntTextClean(u);
    case AFloat(f) => VisibleFloat(f);
    case AError(text) => VisibleQuoted(text);
    case AOther(printed) => VisibleQuoted(printed);
  }

  lemma VisibleValue(v: FieldValue, legacy: Any)
    requires FloatOk(v.float64) && AnyOk(v.any) && AnyOk(legacy)
    ensures Visible(ValueText(v, legacy))
  {
    match v.kind
    case KindString => VisibleQuoted(v.str);
    case KindInt => IntTextClean(v.int64);
    case KindInt64 => IntTextClean(v.int64);
    case KindFloat64 => VisibleFloat(v.float64);
    case KindBool =>
    case KindError => VisibleQuoted(ErrorText(v));
    case KindAny => VisibleAny(v.any);
    case KindUnknown => VisibleAny(legacy);
  }

  lemma VisiblePrefix(key: bytes)
    ensures Visible(PlainPrefix(key))
  {
    VisibleQuoted(key);
  }

  lemma {:induction false} VisibleFields(fs: seq<TypedFieldData>)
    requires FieldsOk(fs)
    ensures Visible(FieldsText(fs))
  {
    if fs != [] {
      VisibleFields(fs[1..]);
      VisiblePrefix(KeyOf(fs[0]));
      VisibleValue(fs[0].val, fs[0].value);
      VisibleConcat(PlainPrefix(KeyOf(fs[0])), ValueText(fs[0].val, fs[0].value));
      VisibleConcat(FieldText(fs[0]), FieldsText(fs[1..]));
    }
  }

  lemma VisibleHeader(time: bytes, level: nat, msg: bytes)
    requires AllClean(time)
    ensures Visible(HeaderAround(time, level) + MESSAGE_OPEN + Escape(msg) + [QUOTE])
  {
    EscapeVisible(msg);
    VisibleConcat(TIME_OPEN, time);
    VisibleConcat(TIME_OPEN + time, [0x22]);
    VisibleConcat(LEVEL_OPEN, LevelName(level));
    VisibleConcat(TIME_OPEN + time + [0x22], LevelText(level));
    VisibleConcat(HeaderAround(time, level), MESSAGE_OPEN);
    VisibleConcat(HeaderAround(time, level) + MESSAGE_OPEN, Escape(msg));
  }

  lemma VisibleCaller(file: bytes, line: int)
    ensures Visible(CallerPart(file, line))
  {
    CallerSplit(file, line);
    VisiblePrefix(CALLER_KEY);
    VisibleQuoted(BaseName(file) + [0x3a] + IntText(line));
  }

  /** A line holds exactly one newline, its last byte: no entry can forge a second line. */
  lemma OneNewline(stamp: Stamp, prec: Precision, e: LogEntry)
    requires StampOk(stamp) && FieldsOk(AllFields(e))
    ensures var t := LineText(stamp, prec, e);
            |t| > 0 && t[|t| - 1] == 0x0a && Visible(t[..|t| - 1])
  {
    var t := LineText(stamp, prec, e);
    var h := HeaderText(stamp, prec, EntryUnixNanos(e), e.level, e.message);
    var c, f := CallerPart(e.file, e.line), FieldsText(AllFields(e));
    TimeTextClean(stamp, prec, EntryUnixNanos(e));
    VisibleHeader(TimeText(stamp, prec, EntryUnixNanos(e)), ClampLevel(e.level), e.message);
    VisibleCaller(e.file, e.line);
    VisibleFields(AllFields(e));
    VisibleConcat(h, c);
    VisibleConcat(h + c, f);
    VisibleConcat(h + c + f, [0x7d]);
    assert t[..|t| - 1] == h + c + f + [0x7d];
  }
}
