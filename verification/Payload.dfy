/** A ring slot's owned copy of a record: the copy must format like the entry it was taken from. */
module Payload {
  import opened Bytes
  import opened Types
  import opened TimeHeader
  import opened Json
  import opened JsonParse

  const SLOT_INLINE_FIELDS: nat := 8

  /** What a slot holds once filled. */
  datatype Copy = Copy(level: nat, tsUnix: int, line: int, message: bytes, component: bytes, file: bytes,
                       fields: seq<TypedFieldData>)

  function CopyOf(e: LogEntry): Copy {
    Copy(e.level, e.timestampUnix, e.line, e.message, e.component, e.file, AllFields(e))
  }

  /** The copy projected onto a scratch entry, whose wall clock is left as it was. */
  function Project(p: Copy, scratch: LogEntry): LogEntry {
    scratch.(level := p.level, timestampUnix := p.tsUnix, line := p.line, message := p.message,
             component := p.component, file := p.file, staticFields := p.fields,
             staticFieldCount := |p.fields|, fields := [])
  }

  /** append within capacity: writes fs after the first at elements. */
  method AppendSlice(a: array<TypedFieldData>, at: nat, fs: seq<TypedFieldData>)
    requires at + |fs| <= a.Length
    modifies a
    ensures a[..at + |fs|] == old(a[..at]) + fs
  {
    for i := 0 to |fs|
      invariant a[..at + i] == old(a[..at]) + fs[..i]
    {
      a[at + i] := fs[i];
    }
  }

  class EntryPayload {
    var level: nat
    var tsUnix: int
    var line: int
    var message: bytes
    var component: bytes
    var file: bytes
    const fieldBuf: array<TypedFieldData>
    // The slice fields: its backing array (fieldBuf, or one made for a wide record) and its length.
    var backing: array<TypedFieldData>
    var count: nat

    ghost predicate Valid()
      reads this
    {
      fieldBuf.Length == SLOT_INLINE_FIELDS && count <= backing.Length
    }

    ghost function View(): Copy
      reads this, backing
      requires Valid()
    {
      Copy(level, tsUnix, line, message, component, file, backing[..count])
    }

    constructor ()
      ensures Valid() && fresh(fieldBuf) && fresh(backing)
    {
      var blank := TypedFieldData([], None, StringValue([]), Nil);
      var buf := new TypedFieldData[SLOT_INLINE_FIELDS](_ => blank);
      fieldBuf, backing, count := buf, buf, 0;
      level, tsUnix, line, message, component, file := 0, 0, 0, [], [], [];
    }

    /** Fills the slot from a live entry; only a record wider than the slot allocates. */
    method CopyFrom(e: LogEntry)
      requires Valid()
      modifies this, fieldBuf
      ensures Valid() && View() == CopyOf(e)
      ensures |AllFields(e)| <= SLOT_INLINE_FIELDS ==> backing == fieldBuf
      ensures |AllFields(e)| > SLOT_INLINE_FIELDS ==> fresh(backing)
    {
      level, tsUnix, line := e.level, e.timestampUnix, e.line;
      message, component, file := e.message, e.component, e.file;
      backing, count := CopyFields(e);
    }

    method CopyFields(e: LogEntry) returns (dst: array<TypedFieldData>, total: nat)
      requires Valid()
      modifies fieldBuf
      ensures total <= dst.Length && dst[..total] == AllFields(e)
      ensures total <= SLOT_INLINE_FIELDS ==> dst == fieldBuf
      ensures total > SLOT_INLINE_FIELDS ==> fresh(dst)
    {
      var n := e.staticFieldCount;
      if n > |e.staticFields| {
        n := |e.staticFields|;
      }
      total := n + |e.fields|;
      dst := fieldBuf;
      if total > fieldBuf.Length {
        var blank := TypedFieldData([], None, StringValue([]), Nil);
        dst := new TypedFieldData[total](_ => blank);
      }
      AppendSlice(dst, 0, e.staticFields[..n]);
      AppendSlice(dst, n, e.fields);
      assert dst[..total] == e.staticFields[..n] + e.fields;
    }

    /** Projects the slot onto the writer's scratch entry. */
    method Into(scratch: LogEntry) returns (e: LogEntry)
      requires Valid()
      ensures e == Project(View(), scratch)
    {
      var fs := backing[..count];
      e := scratch.(level := level, timestampUnix := tsUnix, line := line, message := message,
                    component := component, file := file, staticFields := fs,
                    staticFieldCount := count, fields := []);
    }
  }

  /** The writer's scratch entry never gets a wall clock, whatever was projected onto it before. */
  lemma ProjectIgnoresScratch(p: Copy, q: Copy)
    ensures Project(p, Project(q, ZERO_ENTRY)) == Project(p, ZERO_ENTRY)
  {
  }

  /** The copied record resolves to the entry's time exactly when the guard of the fallback is not taken. */
  predicate TimeSurvives(e: LogEntry) {
    e.timestampUnix != 0 || e.timestamp.None? || e.timestamp.value == 0
  }

  lemma CopyKeepsFields(e: LogEntry)
    ensures AllFields(Project(CopyOf(e), ZERO_ENTRY)) == AllFields(e)
    ensures EntryUnixNanos(Project(CopyOf(e), ZERO_ENTRY)) == EntryUnixNanos(e) <==> TimeSurvives(e)
  {
    assert AllFields(e) + [] == AllFields(e);
  }

  /** With TimestampUnix set, the slot's copy formats to the bytes the entry itself would have. */
  lemma CopyFormatsAlike(stamp: Stamp, prec: Precision, e: LogEntry)
    requires TimeSurvives(e)
    ensures LineText(stamp, prec, Project(CopyOf(e), ZERO_ENTRY)) == LineText(stamp, prec, e)
  {
    CopyKeepsFields(e);
  }

  /** In a fixed zone two seconds never share a stamp. */
  ghost predicate Injective(stamp: Stamp) {
    forall a, b {:trigger stamp(a), stamp(b)} :: stamp(a) == stamp(b) ==> a == b
  }

  lemma NanoTextInjective(stamp: Stamp, a: int, b: int)
    requires StampOk(stamp) && Injective(stamp)
    requires TimeText(stamp, PrecisionNano, a) == TimeText(stamp, PrecisionNano, b)
    ensures a == b
  {
    TimeTextCarriesFraction(stamp, PrecisionNano, a);
    TimeTextCarriesFraction(stamp, PrecisionNano, b);
    var sa, sb := SplitUnixNanos(a).0, SplitUnixNanos(b).0;
    assert stamp(sa) == stamp(sa)[..19] + stamp(sa)[19..];
    assert stamp(sb) == stamp(sb)[..19] + stamp(sb)[19..];
  }

  /**
   * At full precision the copy formats alike if and only if its time survived: an entry that carries only
   * a wall clock loses it in the slot, because the slot keeps TimestampUnix alone.
   */
  lemma CopyFormatsAlikeExactly(stamp: Stamp, e: LogEntry)
    requires StampOk(stamp) && Injective(stamp) && FieldsOk(AllFields(e))
    ensures LineText(stamp, PrecisionNano, Project(CopyOf(e), ZERO_ENTRY)) == LineText(stamp, PrecisionNano, e)
       <==> TimeSurvives(e)
  {
    var copied := Project(CopyOf(e), ZERO_ENTRY);
    CopyKeepsFields(e);
    if TimeSurvives(e) {
      CopyFormatsAlike(stamp, PrecisionNano, e);
    } else if LineText(stamp, PrecisionNano, copied) == LineText(stamp, PrecisionNano, e) {
      LineReads(stamp, PrecisionNano, e);
      LineReads(stamp, PrecisionNano, copied);
      var m, n := EntryMembers(stamp, PrecisionNano, e), EntryMembers(stamp, PrecisionNano, copied);
      assert m[0] == n[0];
      NanoTextInjective(stamp, EntryUnixNanos(e), EntryUnixNanos(copied));
      assert false;
    }
  }
}
