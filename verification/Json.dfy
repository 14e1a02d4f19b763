/** The JSON line encoder: captured entries, the direct-append helpers, and the text both must give. */
module Json {
  import opened Bytes
  import opened Sequences
  import opened Types
  import opened TimeHeader
  import opened HeaderCache
  import opened JsonString

  // true
  const TRUE_TEXT: bytes := [0x74, 0x72, 0x75, 0x65]
  // false
  const FALSE_TEXT: bytes := [0x66, 0x61, 0x6c, 0x73, 0x65]
  // null
  const NULL_TEXT: bytes := [0x6e, 0x75, 0x6c, 0x6c]
  // NaN
  const NAN_TEXT: bytes := [0x4e, 0x61, 0x4e]
  // +Inf
  const POS_INF_TEXT: bytes := [0x2b, 0x49, 0x6e, 0x66]
  // -Inf
  const NEG_INF_TEXT: bytes := [0x2d, 0x49, 0x6e, 0x66]
  // ,"message":"
  const MESSAGE_OPEN: bytes := [0x2c, 0x22, 0x6d, 0x65, 0x73, 0x73, 0x61, 0x67, 0x65, 0x22, 0x3a, 0x22]
  // ,"caller":"
  const CALLER_OPEN: bytes := [0x2c, 0x22, 0x63, 0x61, 0x6c, 0x6c, 0x65, 0x72, 0x22, 0x3a, 0x22]

  // ---- What a line's text is ----

  function Quoted(s: bytes): bytes {
    [QUOTE] + Escape(s) + [QUOTE]
  }

  function BoolText(b: bool): bytes {
    if b then TRUE_TEXT else FALSE_TEXT
  }

  function FloatText(f: Float): bytes {
    match f
    case NaN => [QUOTE] + NAN_TEXT + [QUOTE]
    case PosInf => [QUOTE] + POS_INF_TEXT + [QUOTE]
    case NegInf => [QUOTE] + NEG_INF_TEXT + [QUOTE]
    case Finite(text) => text
  }

  function AnyText(v: Any): bytes {
    match v
    case Nil => NULL_TEXT
    case AString(s) => Quoted(s)
    case ABool(b) => BoolText(b)
    case AInt(i) => IntText(i)
    case AUint(u) => NatText(u)
    case AFloat(f) => FloatText(f)
    case AError(text) => Quoted(text)
    case AOther(printed) => Quoted(printed)
  }

  function ErrorText(v: FieldValue): bytes {
    if v.str != [] then v.str
    else match v.any case AError(text) => text case _ => []
  }

  function ValueText(v: FieldValue, legacy: Any): bytes {
    match v.kind
    case KindString => Quoted(v.str)
    case KindInt => IntText(v.int64)
    case KindInt64 => IntText(v.int64)
    case KindFloat64 => FloatText(v.float64)
    case KindBool => BoolText(v.int64 != 0)
    case KindError => Quoted(ErrorText(v))
    case KindAny => AnyText(v.any)
    case KindUnknown => AnyText(legacy)
  }

  /** The member prefix a plain key is rendered with: a comma, the quoted key, a colon. */
  function PlainPrefix(key: bytes): bytes {
    [0x2c] + Quoted(key) + [0x3a]
  }

  function KeyPrefix(kd: Option<FieldKey>, key: bytes): bytes {
    if kd.Some? && |kd.value.jsonFragment| > 0 then kd.value.jsonFragment else PlainPrefix(key)
  }

  function MemberText(kd: Option<FieldKey>, key: bytes, v: FieldValue, legacy: Any): bytes {
    KeyPrefix(kd, key) + ValueText(v, legacy)
  }

  function FieldText(f: TypedFieldData): bytes {
    MemberText(f.keyDesc, f.key, f.val, f.value)
  }

  function FieldsText(fs: seq<TypedFieldData>): bytes {
    if fs == [] then [] else FieldText(fs[0]) + FieldsText(fs[1..])
  }

  lemma {:induction false} FieldsTextConcat(a: seq<TypedFieldData>, b: seq<TypedFieldData>)
    ensures FieldsText(a + b) == FieldsText(a) + FieldsText(b)
  {
    if a == [] {
      assert a + b == b;
    } else {
      assert (a + b)[1..] == a[1..] + b;
      FieldsTextConcat(a[1..], b);
    }
  }

  lemma FieldsTextSnoc(a: seq<TypedFieldData>, f: TypedFieldData)
    ensures FieldsText(a + [f]) == FieldsText(a) + FieldText(f)
  {
    FieldsTextConcat(a, [f]);
    assert [f][1..] == [];
    assert FieldsText([f]) == FieldText(f) + [];
  }

  predicate IsSeparator(c: bv8) {
    c == 0x2f || c == 0x5c
  }

  /** Where the stretch without separators that ends at i begins. */
  function BaseStart(file: bytes, i: nat): (r: nat)
    requires i <= |file|
    ensures r <= i && forall k :: r <= k < i ==> !IsSeparator(file[k])
    ensures r > 0 ==> IsSeparator(file[r - 1])
  {
    if i == 0 || IsSeparator(file[i - 1]) then i else BaseStart(file, i - 1)
  }

  /** The text after the last path separator. */
  function BaseName(file: bytes): bytes {
    file[BaseStart(file, |file|)..]
  }

  function CallerText(file: bytes, line: int): bytes {
    CALLER_OPEN + Escape(BaseName(file)) + [0x3a] + IntText(line) + [QUOTE]
  }

  function CallerPart(file: bytes, line: int): bytes {
    if line >= 0 && file != [] then CallerText(file, line) else []
  }

  function EntryUnixNanos(e: LogEntry): int {
    if e.timestampUnix != 0 then e.timestampUnix
    else if e.timestamp.Some? then e.timestamp.value
    else 0
  }

  function HeaderText(stamp: Stamp, prec: Precision, nanos: int, level: nat, msg: bytes): bytes {
    Header(stamp, prec, nanos, level) + MESSAGE_OPEN + Escape(msg) + [QUOTE]
  }

  const CLOSER: bytes := [0x7d, 0x0a]

  function RecordOf(e: LogEntry): Record {
    Record(e.level, EntryUnixNanos(e), e.component, e.message, e.file, e.line, AllFields(e))
  }

  /** The formatter to encode with: a rendering of seconds and a precision. */
  datatype Encoder = Encoder(stamp: Stamp, prec: Precision)

  /** A line: header and message, call site, every field, closer. */
  function RecordText(enc: Encoder, r: Record): bytes {
    HeaderText(enc.stamp, enc.prec, r.nanos, r.level, r.message)
    + CallerPart(r.file, r.line) + FieldsText(r.fields) + CLOSER
  }

  /** The line of an entry. */
  function LineText(stamp: Stamp, prec: Precision, e: LogEntry): bytes {
    RecordText(Encoder(stamp, prec), RecordOf(e))
  }

  // ---- The appenders ----

  /** The cached member prefix of a pre-declared key (KeyFragment). */
  method KeyFragment(name: bytes) returns (r: bytes)
    ensures r == PlainPrefix(name)
  {
    r := AppendJSONString([0x2c, 0x22], name);
    r := r + [0x22, 0x3a];
    assert r == [0x2c] + ([0x22] + Escape(name) + [0x22]) + [0x3a];
  }

  lemma PlainPrefixAssembled(dst: bytes, key: bytes)
    ensures dst + [0x2c, 0x22] + Escape(key) + [0x22, 0x3a] == dst + PlainPrefix(key)
  {
  }

  /** Emits a key: its cached fragment, or one fused scan-and-copy pass that bails to the exact escaper. */
  method AppendKeyPrefix(dst: bytes, kd: Option<FieldKey>, key: bytes) returns (r: bytes)
    ensures r == dst + KeyPrefix(kd, key)
  {
    if kd.Some? && |kd.value.jsonFragment| > 0 {
      r := dst + kd.value.jsonFragment;
      return;
    }
    PlainPrefixAssembled(dst, key);
    r := ScanKey(dst + [0x2c, 0x22], key);
    r := r + [0x22, 0x3a];
  }

  method ScanKey(dst: bytes, key: bytes) returns (r: bytes)
    ensures r == dst + Escape(key)
  {
    r := dst;
    for i := 0 to |key|
      invariant r == dst + key[..i] && AllClean(key[..i])
    {
      if !NoEscape(key[i]) {
        r := EscapeRest(r, |dst|, dst, key, i);
        return;
      }
      OneMore(dst, key, i);
      r := r + [key[i]];
    }
    assert key[..|key|] == key;
    EscapeClean(key);
  }

  /** Goes back to the mark and lets the exact escaper finish the key. */
  method EscapeRest(scanned: bytes, mark: nat, ghost dst: bytes, key: bytes, i: nat) returns (r: bytes)
    requires i <= |key| && AllClean(key[..i]) && scanned == dst + key[..i] && mark == |dst|
    ensures r == dst + Escape(key)
  {
    CleanPrefixEscape(key, i);
    DropTail(dst, key[..i]);
    r := AppendJSONEscaped(scanned[..mark], key, i);
  }

  lemma DropTail(dst: bytes, tail: bytes)
    ensures (dst + tail)[..|dst|] == dst
  {
  }

  lemma OneMore(dst: bytes, key: bytes, i: nat)
    requires i < |key|
    ensures dst + key[..i] + [key[i]] == dst + key[..i + 1]
    ensures AllClean(key[..i]) && NoEscape(key[i]) ==> AllClean(key[..i + 1])
  {
    assert key[..i + 1] == key[..i] + [key[i]];
  }

  method AppendQuoted(dst: bytes, s: bytes) returns (r: bytes)
    ensures r == dst + Quoted(s)
  {
    r := AppendJSONString(dst + [0x22], s);
    r := r + [0x22];
  }

  const SMALL_INTS: seq<bytes> := seq(512, i requires 0 <= i < 512 => NatText(i))

  method AppendInt(dst: bytes, i: int) returns (r: bytes)
    ensures r == dst + IntText(i)
  {
    if 0 <= i < 512 {
      r := dst + SMALL_INTS[i];
    } else {
      r := dst + IntText(i);
    }
  }

  method AppendUint(dst: bytes, u: nat) returns (r: bytes)
    ensures r == dst + NatText(u)
  {
    if u < 512 {
      r := dst + SMALL_INTS[u];
    } else {
      r := dst + NatText(u);
    }
  }

  method AppendAny(dst: bytes, v: Any) returns (r: bytes)
    ensures r == dst + AnyText(v)
  {
    match v {
      case Nil => r := dst + NULL_TEXT;
      case AString(s) => r := AppendQuoted(dst, s);
      case ABool(b) => r := dst + BoolText(b);
      case AInt(i) => r := AppendInt(dst, i);
      case AUint(u) => r := AppendUint(dst, u);
      case AFloat(f) => r := dst + FloatText(f);
      case AError(text) => r := AppendQuoted(dst, text);
      case AOther(printed) => r := AppendQuoted(dst, printed);
    }
  }

  /** The value of a field: its typed Val, or the legacy interface when Val is unset. */
  method AppendValue(dst: bytes, v: FieldValue, legacy: Any) returns (r: bytes)
    ensures r == dst + ValueText(v, legacy)
  {
    match v.kind {
      case KindString => r := AppendQuoted(dst, v.str);
      case KindInt => r := AppendInt(dst, v.int64);
      case KindInt64 => r := AppendInt(dst, v.int64);
      case KindFloat64 => r := dst + FloatText(v.float64);
      case KindBool =>
        if v.int64 != 0 {
          r := dst + TRUE_TEXT;
        } else {
          r := dst + FALSE_TEXT;
        }
      case KindError =>
        if v.str != [] {
          r := AppendQuoted(dst, v.str);
        } else if v.any.AError? {
          r := AppendQuoted(dst, v.any.text);
        } else {
          r := dst + [0x22] + [0x22];
        }
      case KindAny => r := AppendAny(dst, v.any);
      case KindUnknown => r := AppendAny(dst, legacy);
    }
  }

  method AppendStructField(dst: bytes, f: TypedFieldData) returns (r: bytes)
    ensures r == dst + FieldText(f)
  {
    r := AppendKeyPrefix(dst, f.keyDesc, f.key);
    r := AppendValue(r, f.val, f.value);
    Assoc(dst, KeyPrefix(f.keyDesc, f.key), ValueText(f.val, f.value));
  }

  /** AppendField of the direct path: the same member with no legacy value. */
  method AppendField(dst: bytes, kd: Option<FieldKey>, key: bytes, v: FieldValue) returns (r: bytes)
    ensures r == dst + FieldText(TypedFieldData(key, kd, v, Nil))
  {
    r := AppendKeyPrefix(dst, kd, key);
    r := AppendValue(r, v, Nil);
    Assoc(dst, KeyPrefix(kd, key), ValueText(v, Nil));
  }

  method AppendStringField(dst: bytes, kd: Option<FieldKey>, key: bytes, value: bytes) returns (r: bytes)
    ensures r == dst + FieldText(TypedFieldData(key, kd, StringValue(value), Nil))
    ensures r == dst + FieldText(TypedFieldData(key, kd, ErrorValue(value), Nil))
  {
    r := AppendKeyPrefix(dst, kd, key);
    r := AppendQuoted(r, value);
    Assoc(dst, KeyPrefix(kd, key), Quoted(value));
    assert ErrorText(ErrorValue(value)) == value;
  }

  method AppendIntField(dst: bytes, kd: Option<FieldKey>, key: bytes, value: int) returns (r: bytes)
    ensures r == dst + FieldText(TypedFieldData(key, kd, IntValue(value), Nil))
    ensures r == dst + FieldText(TypedFieldData(key, kd, Int64Value(value), Nil))
  {
    r := AppendKeyPrefix(dst, kd, key);
    r := AppendInt(r, value);
    Assoc(dst, KeyPrefix(kd, key), IntText(value));
  }

  method AppendFloat64Field(dst: bytes, kd: Option<FieldKey>, key: bytes, value: Float) returns (r: bytes)
    ensures r == dst + FieldText(TypedFieldData(key, kd, Float64Value(value), Nil))
  {
    r := AppendKeyPrefix(dst, kd, key);
    r := r + FloatText(value);
    Assoc(dst, KeyPrefix(kd, key), FloatText(value));
  }

  method AppendBoolField(dst: bytes, kd: Option<FieldKey>, key: bytes, value: bool) returns (r: bytes)
    ensures r == dst + FieldText(TypedFieldData(key, kd, BoolValue(value), Nil))
  {
    r := AppendKeyPrefix(dst, kd, key);
    if value {
      r := r + TRUE_TEXT;
    } else {
      r := r + FALSE_TEXT;
    }
  }

  /** The caller member: the base name of the file, then the line. */
  method AppendCaller(dst: bytes, file: bytes, line: int) returns (r: bytes)
    ensures r == dst + CallerText(file, line)
  {
    var i := |file|;
    while i > 0 && !IsSeparator(file[i - 1])
      invariant 0 <= i <= |file| && BaseStart(file, i) == BaseStart(file, |file|)
    {
      i := i - 1;
    }
    r := AppendCallerText(dst, file[i..], line);
  }

  method AppendCallerText(dst: bytes, base: bytes, line: int) returns (r: bytes)
    ensures r == dst + (CALLER_OPEN + Escape(base) + [0x3a] + IntText(line) + [QUOTE])
  {
    r := AppendJSONString(dst + CALLER_OPEN, base);
    r := AppendInt(r + [0x3a], line);
    r := r + [0x22];
    CallerJoined(dst, CALLER_OPEN, Escape(base), IntText(line));
  }

  lemma CallerJoined(d: bytes, o: bytes, b: bytes, n: bytes)
    ensures d + o + b + [0x3a] + n + [0x22] == d + (o + b + [0x3a] + n + [QUOTE])
  {
  }

  method AppendFields(dst: bytes, fs: seq<TypedFieldData>) returns (r: bytes)
    ensures r == dst + FieldsText(fs)
  {
    r := dst;
    for i := 0 to |fs|
      invariant r == dst + FieldsText(fs[..i])
    {
      FieldsTextStep(dst, fs, i);
      r := AppendStructField(r, fs[i]);
    }
    assert fs[..|fs|] == fs;
  }

  lemma FieldsTextStep(dst: bytes, fs: seq<TypedFieldData>, i: nat)
    requires i < |fs|
    ensures dst + FieldsText(fs[..i]) + FieldText(fs[i]) == dst + FieldsText(fs[..i + 1])
  {
    assert fs[..i + 1] == fs[..i] + [fs[i]];
    FieldsTextSnoc(fs[..i], fs[i]);
    Assoc(dst, FieldsText(fs[..i]), FieldText(fs[i]));
  }

  lemma LineAssembled(stamp: Stamp, prec: Precision, e: LogEntry, dst: bytes, n: nat)
    requires n == if e.staticFieldCount > |e.staticFields| then |e.staticFields| else e.staticFieldCount
    ensures dst + HeaderText(stamp, prec, EntryUnixNanos(e), e.level, e.message) + CallerPart(e.file, e.line)
            + FieldsText(e.staticFields[..n]) + FieldsText(e.fields) + CLOSER
         == dst + LineText(stamp, prec, e)
  {
    FieldsTextConcat(e.staticFields[..n], e.fields);
    LineRegrouped(dst, HeaderText(stamp, prec, EntryUnixNanos(e), e.level, e.message), CallerPart(e.file, e.line),
                  FieldsText(e.staticFields[..n]), FieldsText(e.fields), CLOSER);
  }

  lemma LineRegrouped(dst: bytes, h: bytes, c: bytes, f: bytes, g: bytes, z: bytes)
    ensures dst + h + c + f + g + z == dst + (h + c + (f + g) + z)
  {
  }

  /** The JSON formatter: a precision fixed at construction and the process-wide header caches. */
  class Formatter {
    const prec: Precision
    const caches: Caches

    constructor (prec: Precision, caches: Caches)
      ensures this.prec == prec && this.caches == caches
    {
      this.prec := prec;
      this.caches := caches;
    }

    function Stamp(): Stamp {
      caches.stamp
    }

    method AppendHeader(dst: bytes, nanos: int, level: nat, msg: bytes) returns (r: bytes)
      requires caches.Valid()
      modifies caches
      ensures caches.Valid()
      ensures r == dst + HeaderText(Stamp(), prec, nanos, level, msg)
    {
      if prec == PrecisionSecond {
        r := caches.AppendHeaderSecond(dst, nanos, level);
      } else {
        r := caches.AppendHeaderSub(dst, prec, nanos, level);
      }
      r := AppendJSONString(r + MESSAGE_OPEN, msg);
      r := r + [0x22];
      Assoc4(dst, Header(Stamp(), prec, nanos, level), MESSAGE_OPEN, Escape(msg), [QUOTE]);
    }

    /** Renders an entry: header, caller when the site is known, counted static fields, dynamic fields. */
    method Format(e: Option<LogEntry>, dst: bytes) returns (r: bytes)
      requires caches.Valid()
      modifies caches
      ensures caches.Valid()
      ensures r == if e.None? then dst else dst + LineText(Stamp(), prec, e.value)
    {
      if e.None? {
        return dst;
      }
      var entry := e.value;
      r := AppendHeader(dst, EntryUnixNanos(entry), entry.level, entry.message);
      if entry.line >= 0 && entry.file != [] {
        r := AppendCaller(r, entry.file, entry.line);
      }
      ghost var head := HeaderText(Stamp(), prec, EntryUnixNanos(entry), entry.level, entry.message);
      assert r == dst + head + CallerPart(entry.file, entry.line);
      var n := entry.staticFieldCount;
      if n > |entry.staticFields| {
        n := |entry.staticFields|;
      }
      r := AppendFields(r, entry.staticFields[..n]);
      r := AppendFields(r, entry.fields);
      LineAssembled(Stamp(), prec, entry, dst, n);
      r := r + [0x7d, 0x0a];
    }
  }
}
