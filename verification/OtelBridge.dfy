/** Correlation and attributes of an OpenTelemetry record (otelbridge/adapter.go). */
module OtelBridge {
  import opened Bytes

  /** A field's value as the record would carry it: text, or anything else. */
  datatype Value = Text(s: string) | Other(id: int)

  datatype RawField = RawField(key: string, desc: Option<string>, val: Value)

  datatype KeyValue = KeyValue(key: string, val: Value)

  /** The parts of an entry the bridge reads; indexed is the indexed store's listing. */
  datatype Entry = Entry(staticFields: seq<RawField>, staticFieldCount: int, fields: seq<RawField>,
                         staticContext: seq<RawField>, staticContextCount: int, context: seq<RawField>,
                         indexed: seq<(string, string)>,
                         component: string, errorMsg: string, error: Option<string>, file: string, line: int)

  /** The parsers of the tracing library. */
  datatype Parsers = Parsers(traceId: string -> Option<nat>, spanId: string -> Option<nat>,
                             flags: string -> Option<nat>)

  datatype SpanContext = SpanContext(traceId: nat, spanId: nat, flags: nat)

  const TRACE_ID := "trace_id"
  const SPAN_ID := "span_id"
  const TRACE_FLAGS := "trace_flags"
  const COMPONENT := "component"
  const ERROR := "error"
  const FILE_PATH := "code.file.path"
  const LINE_NO := "code.line.number"

  const BIT_TRACE: bv8 := 1
  const BIT_SPAN: bv8 := 2
  const BIT_FLAGS: bv8 := 4

  const BIT_COMPONENT: bv8 := 1
  const BIT_ERROR: bv8 := 2
  const BIT_FILE: bv8 := 4
  const BIT_LINE: bv8 := 8

  function FieldName(f: RawField): string {
    if f.key != "" then f.key else if f.desc.Some? then f.desc.value else ""
  }

  function Named(fs: seq<RawField>): (r: seq<KeyValue>)
    ensures |r| == |fs|
  {
    if fs == [] then [] else [KeyValue(FieldName(fs[0]), fs[0].val)] + Named(fs[1..])
  }

  function NamedPairs(ps: seq<(string, string)>): (r: seq<KeyValue>)
    ensures |r| == |ps|
  {
    if ps == [] then [] else [KeyValue(ps[0].0, Text(ps[0].1))] + NamedPairs(ps[1..])
  }

  function Counted(fs: seq<RawField>, n: int): seq<RawField> {
    fs[..if n < 0 then 0 else if n > |fs| then |fs| else n]
  }

  /** Every field of the entry, in the order both passes visit them. */
  function EachField(e: Entry): seq<KeyValue> {
    Named(Counted(e.staticFields, e.staticFieldCount)) + Named(e.fields)
    + Named(Counted(e.staticContext, e.staticContextCount)) + Named(e.context) + NamedPairs(e.indexed)
  }

  /** The value of the last field with this key. */
  function LastOf(fs: seq<KeyValue>, key: string): Option<Value> {
    if fs == [] then None
    else if fs[|fs| - 1].key == key then Some(fs[|fs| - 1].val)
    else LastOf(fs[..|fs| - 1], key)
  }

  /** What the last occurrence of a key parses to. */
  function LastParsed(fs: seq<KeyValue>, key: string, parse: string -> Option<nat>): Option<nat> {
    match LastOf(fs, key)
    case Some(Text(s)) => parse(s)
    case _ => None
  }

  lemma LastOfSnoc(fs: seq<KeyValue>, n: nat, key: string)
    requires n < |fs|
    ensures LastOf(fs[..n + 1], key) == if fs[n].key == key then Some(fs[n].val) else LastOf(fs[..n], key)
  {
    assert fs[..n + 1][..n] == fs[..n];
  }

  function OrZero(o: Option<nat>): nat {
    if o.Some? then o.value else 0
  }

  // ---- Correlation ----

  /**
   * Rebuilds the span context. The last occurrence of each key decides, a valid trace id is the whole requirement,
   * and a key is consumed exactly when the record is correlated and its last occurrence parses.
   */
  method ResolveSpanContext(fs: seq<KeyValue>, p: Parsers) returns (ctx: Option<SpanContext>, consumed: bv8, count: nat)
    ensures count == |fs|
    ensures ctx == match LastParsed(fs, TRACE_ID, p.traceId)
                   case None => None
                   case Some(id) => Some(SpanContext(id, OrZero(LastParsed(fs, SPAN_ID, p.spanId)),
                                                     OrZero(LastParsed(fs, TRACE_FLAGS, p.flags))))
    ensures ctx.None? ==> consumed == 0
    ensures ctx.Some? ==> (consumed & BIT_TRACE != 0)
                          && (consumed & BIT_SPAN != 0 <==> LastParsed(fs, SPAN_ID, p.spanId).Some?)
                          && (consumed & BIT_FLAGS != 0 <==> LastParsed(fs, TRACE_FLAGS, p.flags).Some?)
  {
    var cfg := SpanContext(0, 0, 0);
    consumed, count := 0, 0;
    for n := 0 to |fs|
      invariant count == n
      invariant cfg == SpanContext(OrZero(LastParsed(fs[..n], TRACE_ID, p.traceId)),
                                   OrZero(LastParsed(fs[..n], SPAN_ID, p.spanId)),
                                   OrZero(LastParsed(fs[..n], TRACE_FLAGS, p.flags)))
      invariant consumed & BIT_TRACE != 0 <==> LastParsed(fs[..n], TRACE_ID, p.traceId).Some?
      invariant consumed & BIT_SPAN != 0 <==> LastParsed(fs[..n], SPAN_ID, p.spanId).Some?
      invariant consumed & BIT_FLAGS != 0 <==> LastParsed(fs[..n], TRACE_FLAGS, p.flags).Some?
    {
      LastOfSnoc(fs, n, TRACE_ID);
      LastOfSnoc(fs, n, SPAN_ID);
      LastOfSnoc(fs, n, TRACE_FLAGS);
      count := count + 1;
      var key, val := fs[n].key, fs[n].val;
      if key == TRACE_ID {
        consumed, cfg := consumed & !BIT_TRACE, cfg.(traceId := 0);
        if val.Text? && p.traceId(val.s).Some? {
          cfg, consumed := cfg.(traceId := p.traceId(val.s).value), consumed | BIT_TRACE;
        }
      } else if key == SPAN_ID {
        consumed, cfg := consumed & !BIT_SPAN, cfg.(spanId := 0);
        if val.Text? && p.spanId(val.s).Some? {
          cfg, consumed := cfg.(spanId := p.spanId(val.s).value), consumed | BIT_SPAN;
        }
      } else if key == TRACE_FLAGS {
        consumed, cfg := consumed & !BIT_FLAGS, cfg.(flags := 0);
        if val.Text? && p.flags(val.s).Some? {
          cfg, consumed := cfg.(flags := p.flags(val.s).value), consumed | BIT_FLAGS;
        }
      }
    }
    assert fs[..|fs|] == fs;
    if consumed & BIT_TRACE == 0 {
      return None, 0, count;
    }
    return Some(cfg), consumed, count;
  }

  // ---- Attributes ----

  function CorrelationBit(key: string): bv8 {
    if key == TRACE_ID then BIT_TRACE else if key == SPAN_ID then BIT_SPAN
    else if key == TRACE_FLAGS then BIT_FLAGS else 0
  }

  predicate IsCorrelation(key: string) {
    key == TRACE_ID || key == SPAN_ID || key == TRACE_FLAGS
  }

  predicate Consumed(consumed: bv8, key: string) {
    consumed & CorrelationBit(key) != 0
  }

  predicate Has(fs: seq<KeyValue>, key: string) {
    LastOf(fs, key).Some?
  }

  /** The ordinary attributes of a list: those with a key that is not a correlation key. */
  function Ordinary(fs: seq<KeyValue>): seq<KeyValue> {
    if fs == [] then []
    else
      var last := fs[|fs| - 1];
      Ordinary(fs[..|fs| - 1]) + if last.key == "" || IsCorrelation(last.key) then [] else [last]
  }

  lemma OrdinarySnoc(fs: seq<KeyValue>, kv: KeyValue)
    ensures Ordinary(fs + [kv]) == Ordinary(fs) + if kv.key == "" || IsCorrelation(kv.key) then [] else [kv]
  {
    assert (fs + [kv])[..|fs|] == fs;
  }

  lemma {:induction false} OrdinaryReplace(fs: seq<KeyValue>, i: nat, kv: KeyValue)
    requires i < |fs| && IsCorrelation(fs[i].key) && kv.key == fs[i].key
    ensures Ordinary(fs[i := kv]) == Ordinary(fs)
  {
    var front := fs[..|fs| - 1];
    if i == |fs| - 1 {
      assert fs[i := kv][..|fs| - 1] == front;
    } else {
      assert fs[i := kv][..|fs| - 1] == front[i := kv];
      OrdinaryReplace(front, i, kv);
    }
  }

  /** Key occurs once in dst, at place slot - 1, with its last value; or not at all, with slot zero. */
  predicate SlotOk(dst: seq<KeyValue>, slot: nat, fs: seq<KeyValue>, key: string) {
    match LastOf(fs, key)
    case None => slot == 0 && forall i :: 0 <= i < |dst| ==> dst[i].key != key
    case Some(v) =>
      && 0 < slot <= |dst| && dst[slot - 1] == KeyValue(key, v)
      && forall i :: 0 <= i < |dst| && dst[i].key == key ==> i == slot - 1
  }

  /** Where each correlation key's attribute is; nothing is said of consumed keys. */
  predicate SlotsOk(dst: seq<KeyValue>, slots: seq<nat>, fs: seq<KeyValue>, consumed: bv8) {
    && |slots| == 3
    && (!Consumed(consumed, TRACE_ID) ==> SlotOk(dst, slots[0], fs, TRACE_ID))
    && (!Consumed(consumed, SPAN_ID) ==> SlotOk(dst, slots[1], fs, SPAN_ID))
    && (!Consumed(consumed, TRACE_FLAGS) ==> SlotOk(dst, slots[2], fs, TRACE_FLAGS))
  }

  /** The logged attributes: no empty and no consumed key, ordinary fields all kept in order. */
  predicate LoggedOk(dst: seq<KeyValue>, fs: seq<KeyValue>, consumed: bv8) {
    && |dst| <= |fs|
    && (forall i :: 0 <= i < |dst| ==> dst[i].key != "" && !Consumed(consumed, dst[i].key))
    && Ordinary(dst) == Ordinary(fs)
  }

  predicate ClaimedOk(claimed: bv8, fs: seq<KeyValue>) {
    && (claimed & BIT_COMPONENT != 0 <==> Has(fs, COMPONENT))
    && (claimed & BIT_ERROR != 0 <==> Has(fs, ERROR))
    && (claimed & BIT_FILE != 0 <==> Has(fs, FILE_PATH))
    && (claimed & BIT_LINE != 0 <==> Has(fs, LINE_NO))
  }

  function DerivedKeyBit(key: string): bv8 {
    if key == COMPONENT then BIT_COMPONENT else if key == ERROR then BIT_ERROR
    else if key == FILE_PATH then BIT_FILE else if key == LINE_NO then BIT_LINE else 0
  }

  lemma ClaimedStep(claimed: bv8, fs: seq<KeyValue>, n: nat, consumed: bv8)
    requires n < |fs| && ClaimedOk(claimed, fs[..n])
    ensures ClaimedOk(claimed | DerivedKeyBit(fs[n].key), fs[..n + 1])
    ensures fs[n].key == "" || Consumed(consumed, fs[n].key) ==> ClaimedOk(claimed, fs[..n + 1])
  {
    LastOfSnoc(fs, n, COMPONENT);
    LastOfSnoc(fs, n, ERROR);
    LastOfSnoc(fs, n, FILE_PATH);
    LastOfSnoc(fs, n, LINE_NO);
  }

  /** dst' is dst after field kv: unchanged, one longer, or with the attribute of the same key replaced. */
  predicate Took(dst: seq<KeyValue>, dst': seq<KeyValue>, kv: KeyValue) {
    || dst' == dst || dst' == dst + [kv]
    || exists i :: 0 <= i < |dst| && dst[i].key == kv.key && dst' == dst[i := kv]
  }

  /** A field with another key leaves a key's slot as it is. */
  lemma SlotKept(dst: seq<KeyValue>, dst': seq<KeyValue>, slot: nat, fs: seq<KeyValue>, n: nat, key: string)
    requires n < |fs| && SlotOk(dst, slot, fs[..n], key) && fs[n].key != key && Took(dst, dst', fs[n])
    ensures SlotOk(dst', slot, fs[..n + 1], key)
  {
    LastOfSnoc(fs, n, key);
  }

  /** The first field of a key takes the next slot, a later one the same slot. */
  lemma SlotTaken(dst: seq<KeyValue>, slot: nat, fs: seq<KeyValue>, n: nat, key: string)
    requires n < |fs| && SlotOk(dst, slot, fs[..n], key) && fs[n].key == key
    ensures slot == 0 ==> SlotOk(dst + [fs[n]], |dst| + 1, fs[..n + 1], key)
    ensures slot != 0 ==>
              && slot <= |dst| && dst[slot - 1].key == key
              && SlotOk(dst[slot - 1 := fs[n]], slot, fs[..n + 1], key)
  {
    LastOfSnoc(fs, n, key);
  }

  lemma OtherSlotsKept(dst: seq<KeyValue>, dst': seq<KeyValue>, slots: seq<nat>, fs: seq<KeyValue>, n: nat,
                       consumed: bv8)
    requires n < |fs| && SlotsOk(dst, slots, fs[..n], consumed) && Took(dst, dst', fs[n])
    ensures !Consumed(consumed, TRACE_ID) && fs[n].key != TRACE_ID ==> SlotOk(dst', slots[0], fs[..n + 1], TRACE_ID)
    ensures !Consumed(consumed, SPAN_ID) && fs[n].key != SPAN_ID ==> SlotOk(dst', slots[1], fs[..n + 1], SPAN_ID)
    ensures !Consumed(consumed, TRACE_FLAGS) && fs[n].key != TRACE_FLAGS ==>
              SlotOk(dst', slots[2], fs[..n + 1], TRACE_FLAGS)
  {
    if !Consumed(consumed, TRACE_ID) && fs[n].key != TRACE_ID {
      SlotKept(dst, dst', slots[0], fs, n, TRACE_ID);
    }
    if !Consumed(consumed, SPAN_ID) && fs[n].key != SPAN_ID {
      SlotKept(dst, dst', slots[1], fs, n, SPAN_ID);
    }
    if !Consumed(consumed, TRACE_FLAGS) && fs[n].key != TRACE_FLAGS {
      SlotKept(dst, dst', slots[2], fs, n, TRACE_FLAGS);
    }
  }

  lemma LoggedAppended(dst: seq<KeyValue>, fs: seq<KeyValue>, n: nat, consumed: bv8)
    requires n < |fs| && LoggedOk(dst, fs[..n], consumed)
    ensures fs[n].key == "" || Consumed(consumed, fs[n].key) ==> LoggedOk(dst, fs[..n + 1], consumed)
    ensures fs[n].key != "" && !Consumed(consumed, fs[n].key) ==> LoggedOk(dst + [fs[n]], fs[..n + 1], consumed)
  {
    assert fs[..n + 1] == fs[..n] + [fs[n]];
    OrdinarySnoc(fs[..n], fs[n]);
    OrdinarySnoc(dst, fs[n]);
  }

  lemma LoggedReplaced(dst: seq<KeyValue>, i: nat, fs: seq<KeyValue>, n: nat, consumed: bv8)
    requires n < |fs| && LoggedOk(dst, fs[..n], consumed) && i < |dst|
    requires IsCorrelation(fs[n].key) && dst[i].key == fs[n].key
    ensures LoggedOk(dst[i := fs[n]], fs[..n + 1], consumed)
  {
    assert fs[..n + 1] == fs[..n] + [fs[n]];
    OrdinarySnoc(fs[..n], fs[n]);
    OrdinaryReplace(dst, i, fs[n]);
  }

  /** Adds one field: skipped, put in the slot its key already has, or appended. */
  method Add(dst: seq<KeyValue>, slots: seq<nat>, fs: seq<KeyValue>, n: nat, consumed: bv8)
    returns (dst': seq<KeyValue>, slots': seq<nat>)
    requires n < |fs| && LoggedOk(dst, fs[..n], consumed) && SlotsOk(dst, slots, fs[..n], consumed)
    ensures LoggedOk(dst', fs[..n + 1], consumed) && SlotsOk(dst', slots', fs[..n + 1], consumed)
  {
    var kv := fs[n];
    LoggedAppended(dst, fs, n, consumed);
    if kv.key == "" || Consumed(consumed, kv.key) {
      OtherSlotsKept(dst, dst, slots, fs, n, consumed);
      return dst, slots;
    }
    if IsCorrelation(kv.key) {
      dst', slots' := AddCorrelation(dst, slots, fs, n, consumed);
      return;
    }
    OtherSlotsKept(dst, dst + [kv], slots, fs, n, consumed);
    return dst + [kv], slots;
  }

  /** The place of a correlation key among the three slots. */
  function SlotIndex(key: string): (r: nat)
    ensures r < 3
  {
    if key == TRACE_ID then 0 else if key == SPAN_ID then 1 else 2
  }

  lemma SlotsUpdated(dst: seq<KeyValue>, dst': seq<KeyValue>, slots: seq<nat>, slot: nat, fs: seq<KeyValue>, n: nat,
                     consumed: bv8)
    requires n < |fs| && SlotsOk(dst, slots, fs[..n], consumed) && Took(dst, dst', fs[n])
    requires IsCorrelation(fs[n].key) && SlotOk(dst', slot, fs[..n + 1], fs[n].key)
    ensures SlotsOk(dst', slots[SlotIndex(fs[n].key) := slot], fs[..n + 1], consumed)
  {
    OtherSlotsKept(dst, dst', slots, fs, n, consumed);
  }

  method AddCorrelation(dst: seq<KeyValue>, slots: seq<nat>, fs: seq<KeyValue>, n: nat, consumed: bv8)
    returns (dst': seq<KeyValue>, slots': seq<nat>)
    requires n < |fs| && LoggedOk(dst, fs[..n], consumed) && SlotsOk(dst, slots, fs[..n], consumed)
    requires IsCorrelation(fs[n].key) && !Consumed(consumed, fs[n].key)
    ensures LoggedOk(dst', fs[..n + 1], consumed) && SlotsOk(dst', slots', fs[..n + 1], consumed)
  {
    var kv := fs[n];
    var j := SlotIndex(kv.key);
    SlotTaken(dst, slots[j], fs, n, kv.key);
    var slot := slots[j];
    if slot != 0 {
      LoggedReplaced(dst, slot - 1, fs, n, consumed);
      dst' := dst[slot - 1 := kv];
    } else {
      LoggedAppended(dst, fs, n, consumed);
      dst', slot := dst + [kv], |dst| + 1;
    }
    slots' := slots[j := slot];
    SlotsUpdated(dst, dst', slots, slot, fs, n, consumed);
  }

  method Logged(fs: seq<KeyValue>, consumed: bv8) returns (dst: seq<KeyValue>, claimed: bv8, ghost slots: seq<nat>)
    ensures LoggedOk(dst, fs, consumed) && SlotsOk(dst, slots, fs, consumed) && ClaimedOk(claimed, fs)
  {
    dst, claimed := [], 0;
    var places: seq<nat> := [0, 0, 0];
    for n := 0 to |fs|
      invariant LoggedOk(dst, fs[..n], consumed) && SlotsOk(dst, places, fs[..n], consumed)
      invariant ClaimedOk(claimed, fs[..n])
    {
      ClaimedStep(claimed, fs, n, consumed);
      dst, places := Add(dst, places, fs, n, consumed);
      if fs[n].key != "" && !Consumed(consumed, fs[n].key) {
        claimed := claimed | DerivedKeyBit(fs[n].key);
      }
    }
    assert fs[..|fs|] == fs;
    slots := places;
  }

  function ErrorMessage(e: Entry): string {
    if e.errorMsg != "" then e.errorMsg else if e.error.Some? then e.error.value else ""
  }

  /** The metadata attributes: each only when the entry has it and no logged field has its key. */
  function Derived(e: Entry, fs: seq<KeyValue>): seq<KeyValue> {
    (if e.component != "" && !Has(fs, COMPONENT) then [KeyValue(COMPONENT, Text(e.component))] else [])
    + (if ErrorMessage(e) != "" && !Has(fs, ERROR) then [KeyValue(ERROR, Text(ErrorMessage(e)))] else [])
    + (if e.file != "" && e.line >= 0 && !Has(fs, FILE_PATH) then [KeyValue(FILE_PATH, Text(e.file))] else [])
    + (if e.file != "" && e.line >= 0 && !Has(fs, LINE_NO) then [KeyValue(LINE_NO, Other(e.line))] else [])
  }

  function AttributeCapacity(e: Entry, n: nat): nat {
    n + (if e.component != "" then 1 else 0) + (if e.errorMsg != "" || e.error.Some? then 1 else 0)
    + (if e.file != "" && e.line >= 0 then 2 else 0)
  }

  /**
   * The record's attributes: the logged ones, then the derived ones. An unconsumed correlation key that occurs is
   * there once, with its last value; the count stays within the capacity staged for it.
   */
  method Attributes(e: Entry, consumed: bv8) returns (dst: seq<KeyValue>, logged: seq<KeyValue>, ghost slots: seq<nat>)
    ensures dst == logged + Derived(e, EachField(e))
    ensures LoggedOk(logged, EachField(e), consumed) && SlotsOk(logged, slots, EachField(e), consumed)
    ensures |dst| <= AttributeCapacity(e, |EachField(e)|)
  {
    var claimed: bv8;
    var fs := EachField(e);
    logged, claimed, slots := Logged(fs, consumed);
    var derived := DeriveMetadata(e, fs, claimed);
    dst := logged + derived;
  }

  method DeriveMetadata(e: Entry, ghost fs: seq<KeyValue>, claimed: bv8) returns (dst: seq<KeyValue>)
    requires ClaimedOk(claimed, fs)
    ensures dst == Derived(e, fs)
  {
    dst := [];
    if e.component != "" && claimed & BIT_COMPONENT == 0 {
      dst := dst + [KeyValue(COMPONENT, Text(e.component))];
    }
    if claimed & BIT_ERROR == 0 {
      var msg := ErrorMessage(e);
      if msg != "" {
        dst := dst + [KeyValue(ERROR, Text(msg))];
      }
    }
    if e.file != "" && e.line >= 0 {
      if claimed & BIT_FILE == 0 {
        dst := dst + [KeyValue(FILE_PATH, Text(e.file))];
      }
      if claimed & BIT_LINE == 0 {
        dst := dst + [KeyValue(LINE_NO, Other(e.line))];
      }
    }
  }

  /** The room staged for the attributes: one of two fixed arrays, or a slice of the exact bound. */
  function Staged(capacity: nat): nat {
    if capacity <= 16 then 16 else if capacity <= 32 then 32 else capacity
  }

  /** A consumed key has no attribute; any other that occurs has one, with its last value. */
  predicate Settled(attrs: seq<KeyValue>, fs: seq<KeyValue>, key: string, consumed: bool) {
    if consumed || !Has(fs, key) then forall i :: 0 <= i < |attrs| ==> attrs[i].key != key
    else exists i :: 0 <= i < |attrs| && attrs[i] == KeyValue(key, LastOf(fs, key).value)
                     && forall j :: 0 <= j < |attrs| && attrs[j].key == key ==> j == i
  }

  /**
   * Builds a record from an entry. The record is correlated exactly when the last trace id parses; a correlation key
   * is consumed exactly when the record is correlated and the key's last occurrence parses; consumed keys leave the
   * attributes and the others stay, once; the attributes never outgrow what was staged for them. Nothing is built
   * when the severity is not enabled.
   */
  method Build(e: Entry, p: Parsers, enabled: Option<SpanContext> -> bool)
    returns (ctx: Option<SpanContext>, attrs: Option<seq<KeyValue>>)
    ensures attrs.Some? <==> enabled(ctx)
    ensures ctx.Some? <==> LastParsed(EachField(e), TRACE_ID, p.traceId).Some?
    ensures attrs.Some? ==>
              && |attrs.value| <= Staged(AttributeCapacity(e, |EachField(e)|))
              && Settled(attrs.value, EachField(e), TRACE_ID, ctx.Some?)
              && Settled(attrs.value, EachField(e), SPAN_ID,
                         ctx.Some? && LastParsed(EachField(e), SPAN_ID, p.spanId).Some?)
              && Settled(attrs.value, EachField(e), TRACE_FLAGS,
                         ctx.Some? && LastParsed(EachField(e), TRACE_FLAGS, p.flags).Some?)
  {
    var consumed: bv8;
    var count: nat;
    ctx, consumed, count := ResolveSpanContext(EachField(e), p);
    if !enabled(ctx) {
      return ctx, None;
    }
    if AttributeCapacity(e, count) == 0 {
      return ctx, Some([]);
    }
    var dst, logged, slots := Attributes(e, consumed);
    KeySettled(e, dst, logged, slots[0], consumed, TRACE_ID);
    KeySettled(e, dst, logged, slots[1], consumed, SPAN_ID);
    KeySettled(e, dst, logged, slots[2], consumed, TRACE_FLAGS);
    attrs := Some(dst);
  }

  lemma KeySettled(e: Entry, dst: seq<KeyValue>, logged: seq<KeyValue>, slot: nat, consumed: bv8, key: string)
    requires dst == logged + Derived(e, EachField(e)) && IsCorrelation(key)
    requires LoggedOk(logged, EachField(e), consumed)
    requires !Consumed(consumed, key) ==> SlotOk(logged, slot, EachField(e), key)
    ensures Settled(dst, EachField(e), key, Consumed(consumed, key))
  {
    forall i | |logged| <= i < |dst| ensures dst[i].key != key {
      DerivedAreFresh(e, EachField(e), i - |logged|, 0);
    }
    if !Consumed(consumed, key) && Has(EachField(e), key) {
      assert dst[slot - 1] == logged[slot - 1];
    }
  }

  lemma {:induction false} LastOfFinds(fs: seq<KeyValue>, key: string)
    ensures Has(fs, key) <==> exists i :: 0 <= i < |fs| && fs[i].key == key
    ensures forall i :: 0 <= i < |fs| && fs[i].key == key && (forall j :: i < j < |fs| ==> fs[j].key != key) ==>
              LastOf(fs, key) == Some(fs[i].val)
  {
    if fs != [] {
      LastOfFinds(fs[..|fs| - 1], key);
      assert fs[|fs| - 1].key == key || forall i :: 0 <= i < |fs| && fs[i].key == key ==> i < |fs| - 1;
    }
  }

  /** Derived metadata never takes a key some logged field has, nor a key of its own twice. */
  lemma DerivedAreFresh(e: Entry, fs: seq<KeyValue>, i: nat, j: nat)
    requires i < |Derived(e, fs)|
    ensures !Has(fs, Derived(e, fs)[i].key) && !IsCorrelation(Derived(e, fs)[i].key)
    ensures i < j < |Derived(e, fs)| ==> Derived(e, fs)[i].key != Derived(e, fs)[j].key
  {
  }
}
