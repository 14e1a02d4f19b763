/**
 * Pooled line state with epochs, the two encoding paths, and the one dispatch point (core/pool.go, line.go,
 * fluent_typed.go).
 */
module Lines {
  import opened Bytes
  import opened Sequences
  import opened Types
  import opened Json
  import opened Logging
  import HeaderCache

  const BUFFER: nat := 64

  /** A field argument, by the setter that takes it. */
  datatype Arg =
    | Str(s: bytes)
    | Int(i: int)
    | Int64(n: int)
    | Float64(f: Float)
    | Bool(b: bool)
    | Err(text: bytes)
    | AnyArg(v: Any)

  function ValueOf(a: Arg): FieldValue {
    match a
    case Str(s) => StringValue(s)
    case Int(i) => IntValue(i)
    case Int64(n) => Int64Value(n)
    case Float64(f) => Float64Value(f)
    case Bool(b) => BoolValue(b)
    case Err(text) => ErrorValue(text)
    case AnyArg(v) => AnyValue(v)
  }

  function FieldOf(kd: Option<FieldKey>, key: bytes, a: Arg): TypedFieldData {
    TypedFieldData(key, kd, ValueOf(a), Nil)
  }

  /** One pooled per-processor state. visible is the length of the entry's static slice over the fixed buffer. */
  class PState {
    const fieldBuf: array<TypedFieldData>
    var level: nat
    var nanos: int
    var component: bytes
    var message: bytes
    var file: bytes
    var line: int
    var visible: nat
    var count: nat
    var overflow: seq<TypedFieldData>
    var directJSON: Formatter?
    var directFields: bytes
    var lineBuf: bytes
    var owner: Option<Logger>
    var lineLevel: nat
    var epoch: nat

    ghost predicate Shape()
      reads this`count, this`visible
    {
      fieldBuf.Length == BUFFER && count <= visible <= BUFFER
    }

    /** Fields overflow only once the visible slice is full. */
    ghost predicate WellFormed()
      reads this`count, this`visible, this`overflow
    {
      Shape() && (overflow != [] ==> count == visible)
    }

    /** One more field does not go past the buffer: the line is encoded directly, or its visible slice has room. */
    predicate HasRoom()
      reads this`directJSON, this`count, this`visible
    {
      directJSON != null || count < visible
    }

    /** The entry this state would hand to an adapter. */
    function Entry(): LogEntry
      requires count <= visible <= fieldBuf.Length
      reads this, fieldBuf
    {
      LogEntry(level, nanos, None, component, message, file, line, fieldBuf[..visible], count, overflow)
    }

    ghost function Captured(): seq<TypedFieldData>
      requires count <= visible <= fieldBuf.Length
      reads this`count, this`visible, this`overflow, fieldBuf
    {
      fieldBuf[..count] + overflow
    }

    constructor ()
      ensures WellFormed() && fresh(fieldBuf)
      ensures count == 0 && visible == BUFFER && overflow == [] && file == [] && line == 0 && epoch == 0
      ensures directJSON == null && directFields == []
    {
      fieldBuf := new TypedFieldData[BUFFER](_ => NO_FIELD);
      level, nanos, component, message, file, line := 0, 0, [], [], [], 0;
      visible, count, overflow := BUFFER, 0, [];
      directJSON, directFields, lineBuf := null, [], [];
      owner, lineLevel, epoch := None, 0, 0;
    }

    /** Stores a field in the fixed buffer, or past it once the visible slice is full. */
    method CaptureField(f: TypedFieldData)
      requires Shape()
      modifies this`count, this`overflow, fieldBuf
      ensures Shape()
      ensures old(WellFormed()) ==> WellFormed() && Captured() == old(Captured()) + [f]
      ensures overflow == if old(count) < visible then old(overflow) else old(overflow) + [f]
      ensures count == old(count) + if old(count) < visible then 1 else 0
    {
      if count < visible {
        fieldBuf[count] := f;
        count := count + 1;
      } else {
        overflow := overflow + [f];
      }
    }

    /** Completes the entry and trims the static slice to its counted fields. */
    method Fill(l: Logger, level: nat, msg: bytes, now: int, ghost fields: seq<TypedFieldData>)
      requires Shape() && file == [] && line == 0 && Captured() == l.bound + fields
      modifies this`level, this`message, this`component, this`nanos, this`visible
      ensures WellFormed() && visible == count && RecordOf(Entry()) == LineRecord(l, level, msg, now, fields)
    {
      this.level := level;
      message := msg;
      component := l.component;
      nanos := now;
      visible := count;
    }

    /** Copies the bound context to the front of the buffer. */
    method PrefillBound(bound: seq<TypedFieldData>)
      requires Shape() && count == 0 && visible == BUFFER && |bound| <= MAX_BOUND_FIELDS
      modifies this`count, fieldBuf
      ensures Shape() && Captured() == bound + overflow
    {
      if |bound| == 0 {
        return;
      }
      forall i | 0 <= i < |bound| {
        fieldBuf[i] := bound[i];
      }
      count := |bound|;
    }

    /** Adds one field on the line's own path: encoded at once, or captured. */
    method Add(kd: Option<FieldKey>, key: bytes, a: Arg)
      requires Shape()
      modifies this`count, this`overflow, this`directFields, fieldBuf
      ensures Shape() && (old(WellFormed()) ==> WellFormed())
      ensures directJSON != null ==>
                directFields == old(directFields) + FieldText(FieldOf(kd, key, a)) && Captured() == old(Captured())
      ensures directJSON == null ==> directFields == old(directFields)
      ensures directJSON == null && old(WellFormed()) ==> Captured() == old(Captured()) + [FieldOf(kd, key, a)]
      ensures overflow == if old(HasRoom()) then old(overflow) else old(overflow) + [FieldOf(kd, key, a)]
      ensures count == old(count) + if directJSON == null && old(count) < visible then 1 else 0
    {
      if directJSON != null {
        match a {
          case Str(s) => directFields := AppendStringField(directFields, kd, key, s);
          case Int(i) => directFields := AppendIntField(directFields, kd, key, i);
          case Int64(n) => directFields := AppendIntField(directFields, kd, key, n);
          case Float64(f) => directFields := AppendFloat64Field(directFields, kd, key, f);
          case Bool(b) => directFields := AppendBoolField(directFields, kd, key, b);
          case Err(text) => directFields := AppendStringField(directFields, kd, key, text);
          case AnyArg(v) => directFields := AppendField(directFields, kd, key, AnyValue(v));
        }
      } else {
        CaptureField(FieldOf(kd, key, a));
      }
    }
  }

  function EncoderOf(f: Formatter): Encoder {
    Encoder(f.Stamp(), f.prec)
  }

  /** Finishing s would write exactly these fields after l's bound ones, on the path enc says. */
  ghost predicate Holds(s: PState, l: Logger, enc: Option<Encoder>, fields: seq<TypedFieldData>)
    reads s`count, s`visible, s`overflow, s`directJSON, s`directFields, s.fieldBuf
  {
    && s.Shape()
    && (s.directJSON != null <==> enc.Some?)
    && match enc
       case Some(e) => EncoderOf(s.directJSON) == e && s.directFields == FieldsText(fields)
       case None => s.Captured() == l.bound + fields
  }

  /** The state s holds exactly this line of logger l, on the path it was opened with, and can take more fields. */
  ghost predicate Carries(s: PState, l: Logger, enc: Option<Encoder>, fields: seq<TypedFieldData>)
    reads s`count, s`visible, s`overflow, s`directJSON, s`directFields, s.fieldBuf
  {
    s.WellFormed() && Holds(s, l, enc, fields)
  }

  lemma AddKeepsCarries(bound: seq<TypedFieldData>, fields: seq<TypedFieldData>, f: TypedFieldData)
    ensures FieldsText(fields + [f]) == FieldsText(fields) + FieldText(f)
    ensures (bound + fields) + [f] == bound + (fields + [f])
  {
    FieldsTextSnoc(fields, f);
  }

  /** A line in its state takes one more field. */
  method AddCarried(s: PState, kd: Option<FieldKey>, key: bytes, a: Arg, ghost l: Logger, ghost enc: Option<Encoder>,
                    ghost fields: seq<TypedFieldData>)
    requires Carries(s, l, enc, fields)
    modifies s`count, s`overflow, s`directFields, s.fieldBuf
    ensures Carries(s, l, enc, fields + [FieldOf(kd, key, a)])
    ensures s.overflow == if old(s.HasRoom()) then old(s.overflow) else old(s.overflow) + [FieldOf(kd, key, a)]
  {
    AddKeepsCarries(l.bound, fields, FieldOf(kd, key, a));
    s.Add(kd, key, a);
  }

  // ---- The pool, and lines opened against it ----

  /** A line handle: two words, and null for a disabled line. */
  datatype Line = Line(s: PState?, epoch: nat)

  /** A line as its caller means it: its logger, its path, its level and the fields added to it. */
  datatype OpenLine = OpenLine(l: Logger, enc: Option<Encoder>, level: nat, fields: seq<TypedFieldData>, done: bool)

  /** leveled: the handle is a Line's; a typed builder's level is that of its terminal. */
  datatype Opened = Opened(handle: Line, spec: OpenLine, leveled: bool)

  function EncoderFor(l: Logger, f: Formatter?): Option<Encoder> {
    if l.direct && f != null then Some(EncoderOf(f)) else None
  }

  /** s is what taking place pick of the pool gives, and rest what is left; past its end s is a new state. */
  predicate Taken(free: seq<PState>, pick: nat, rest: seq<PState>, s: PState) {
    if pick < |free| then s == free[pick] && rest == free[..pick] + free[pick + 1..] else rest == free
  }

  class Core {
    const caches: HeaderCache.Caches
    var free: seq<PState>
    var events: seq<Event>
    ghost var all: set<PState>
    ghost var lines: seq<Opened>

    ghost predicate StateOk(s: PState)
      reads s
    {
      s.Shape() && s.file == [] && s.line == 0 && (s.directJSON != null ==> s.directJSON.caches == caches)
    }

    /** The pool holds no state twice, and no two states share a buffer. */
    ghost predicate PoolShape()
      reads this`free, this`all, all, caches
    {
      && caches.Valid()
      && (forall i, j :: 0 <= i < j < |free| ==> free[i] != free[j])
      && (forall i :: 0 <= i < |free| ==> free[i] in all)
      && (forall s <- all :: StateOk(s))
      && (forall s <- all, t <- all :: s != t ==> s.fieldBuf != t.fieldBuf)
    }

    /** No pooled state keeps a field past its fixed buffer: taking one clears only the buffer's count. */
    ghost predicate Clean()
      reads this`free, free
    {
      forall i :: 0 <= i < |free| ==> free[i].overflow == []
    }

    ghost predicate CleanBut(pick: nat)
      reads this`free, free
    {
      forall i :: 0 <= i < |free| && i != pick ==> free[i].overflow == []
    }

    ghost predicate PoolOk()
      reads this`free, this`all, all, free, caches
    {
      PoolShape() && Clean()
    }

    /** A handle is current exactly while its line is unfinished; then its state is out of the pool and carries it. */
    ghost predicate HandleOk(o: Opened)
      reads this`free, this`all, all, set s | s in all :: s.fieldBuf
    {
      var s := o.handle.s;
      && s != null && s in all && o.handle.epoch <= s.epoch
      && (o.handle.epoch == s.epoch <==> !o.spec.done)
      && (!o.spec.done ==> s !in free && LoggerOk(o.spec.l) && (o.spec.enc.Some? ==> o.spec.l.direct)
                           && (o.leveled ==> s.owner == Some(o.spec.l) && s.lineLevel == o.spec.level)
                           && Carries(s, o.spec.l, o.spec.enc, o.spec.fields))
    }

    ghost predicate LinesOk()
      reads this`free, this`all, this`lines, all, set s | s in all :: s.fieldBuf
    {
      && (forall i :: 0 <= i < |lines| ==> HandleOk(lines[i]))
      && (forall i, j :: 0 <= i < j < |lines| ==> lines[i].handle != lines[j].handle)
    }

    /** Every open line is as it should be, whatever a pooled state may have been left with. */
    ghost predicate Usable()
      reads this`free, this`all, this`lines, all, caches, set s | s in all :: s.fieldBuf
    {
      PoolShape() && LinesOk()
    }

    ghost predicate Valid()
      reads this`free, this`all, this`lines, all, free, caches, set s | s in all :: s.fieldBuf
    {
      PoolOk() && LinesOk()
    }

    constructor (caches: HeaderCache.Caches)
      requires caches.Valid()
      ensures Valid() && this.caches == caches && lines == [] && events == [] && all == {} && free == []
    {
      this.caches := caches;
      free, events, all, lines := [], [], {}, [];
    }

    /** s is out of the pool and no open line owns it: only the caller may touch it. */
    ghost predicate Held(s: PState)
      reads this`free, this`all, this`lines, s`epoch
    {
      && s in all && s !in free
      && forall i :: 0 <= i < |lines| && lines[i].handle.s == s ==> lines[i].handle.epoch < s.epoch
    }

    /** Every opened line but number id is as it should be. */
    ghost predicate OthersOk(id: int)
      reads this`free, this`all, this`lines, all, set s | s in all :: s.fieldBuf
    {
      && (forall i :: 0 <= i < |lines| && i != id ==> HandleOk(lines[i]))
      && (forall i, j :: 0 <= i < j < |lines| ==> lines[i].handle != lines[j].handle)
    }

    /** No line but number id has the current epoch of s. */
    ghost predicate NotShared(s: PState, id: int)
      reads this`lines, s`epoch
    {
      forall i :: 0 <= i < |lines| && i != id && lines[i].handle.s == s ==> lines[i].handle.epoch < s.epoch
    }

    /** Whatever happens to a state no other open line owns, the other lines are undisturbed. */
    twostate lemma OthersUndisturbed(s: PState, new id: int)
      requires old(OthersOk(id))
      requires old(NotShared(s, id))
      requires lines == old(lines) && all == old(all)
      requires forall t :: t in free ==> t in old(free) || t == s
      requires s.epoch >= old(s.epoch)
      requires forall t :: t in all && t != s ==> unchanged(t) && unchanged(t.fieldBuf)
      ensures OthersOk(id) && NotShared(s, id)
    {
      forall i | 0 <= i < |lines| && i != id ensures HandleOk(lines[i]) {
        assert old(HandleOk(lines[i]));
      }
    }

    /** While a state is out of the pool its owner may change all but its epoch. */
    twostate lemma OwnerMayChange(s: PState, new id: int)
      requires old(PoolOk()) && old(OthersOk(id)) && old(NotShared(s, id))
      requires s in all && s !in free && unchanged(`free) && unchanged(`lines) && unchanged(`all)
      requires caches.Valid() && StateOk(s) && s.epoch == old(s.epoch)
      requires forall t :: t in all && t != s ==> unchanged(t) && unchanged(t.fieldBuf)
      ensures PoolOk() && OthersOk(id) && NotShared(s, id)
    {
      forall i | 0 <= i < |lines| && i != id ensures HandleOk(lines[i]) {
        assert old(HandleOk(lines[i]));
      }
    }

    /** Changing a state no open line owns disturbs no open line, and the pool only if it is pooled. */
    twostate lemma HeldIsPrivate(s: PState)
      requires old(Usable()) && s in all && old(NotShared(s, -1)) && unchanged(this) && unchanged(caches)
      requires StateOk(s) && s.epoch == old(s.epoch)
      requires forall t :: t in all && t != s ==> unchanged(t) && unchanged(t.fieldBuf)
      ensures Usable() && NotShared(s, -1)
      ensures old(Clean()) && (s !in free || s.overflow == []) ==> Clean()
    {
      forall i | 0 <= i < |lines| ensures HandleOk(lines[i]) {
        assert old(HandleOk(lines[i]));
      }
    }

    method Take(pick: nat) returns (s: PState)
      requires Usable()
      modifies this`free, this`all
      ensures Usable() && Held(s)
      ensures old(Clean()) ==> s.overflow == []
      ensures old(CleanBut(pick)) ==> Clean()
      ensures Taken(old(free), pick, free, s) && (pick >= |old(free)| ==> fresh(s) && fresh(s.fieldBuf))
      ensures all == old(all) + {s} && (s in old(all) || (fresh(s) && fresh(s.fieldBuf)))
    {
      if pick < |free| {
        s := Recycle(pick);
      } else {
        s := Make();
      }
    }

    method Recycle(pick: nat) returns (s: PState)
      requires Usable() && pick < |free|
      modifies this`free
      ensures Usable() && Held(s) && Taken(old(free), pick, free, s)
      ensures old(Clean()) ==> s.overflow == []
      ensures old(CleanBut(pick)) ==> Clean()
    {
      s := free[pick];
      free := free[..pick] + free[pick + 1..];
    }

    method Make() returns (s: PState)
      requires Usable()
      modifies this`all
      ensures Usable() && Held(s) && fresh(s) && fresh(s.fieldBuf) && s.overflow == [] && all == old(all) + {s}
    {
      s := new PState();
      label made:
      all := all + {s};
      forall i | 0 <= i < |lines| ensures HandleOk(lines[i]) {
        assert old@made(HandleOk(lines[i]));
      }
    }

    /** Takes any pooled state, or makes one; clears the line's fields, except those past the fixed buffer. */
    method Get(pick: nat) returns (s: PState)
      requires Usable()
      modifies this`free, this`all, all
      ensures Usable() && Held(s)
      ensures old(Clean()) ==> s.overflow == []
      ensures old(CleanBut(pick)) ==> Clean()
      ensures Taken(old(free), pick, free, s) && (pick >= |old(free)| ==> fresh(s) && fresh(s.fieldBuf))
      ensures pick < |old(free)| ==> s.overflow == old(free[pick].overflow)
      ensures all == old(all) + {s} && (s in old(all) || (fresh(s) && fresh(s.fieldBuf)))
      ensures s.count == 0 && s.visible == BUFFER && s.directJSON == null && s.directFields == []
    {
      s := Take(pick);
      label taken:
      s.count := 0;
      s.directJSON := null;
      s.directFields := [];
      s.visible := BUFFER;
      HeldIsPrivate@taken(s);
    }

    /** Resets a finished state, retires its epoch, and returns it to the pool. */
    method Put(s: PState, ghost id: int)
      requires PoolOk() && OthersOk(id) && s in all && s !in free && NotShared(s, id)
      modifies this`free, s`count, s`overflow, s`owner, s`epoch
      ensures PoolOk() && OthersOk(id) && s in free && s.epoch == old(s.epoch) + 1 && free == old(free) + [s]
      ensures s.count == 0
    {
      label before:
      s.count := 0;
      s.overflow := [];
      s.owner := None;
      s.epoch := s.epoch + 1;
      free := free + [s];
      OthersUndisturbed@before(s, id);
    }

    /**
     * A state for a new line, on the direct path when the adapter's current encoder is the JSON formatter. On the
     * capture path the line starts with whatever the state was left with past its buffer.
     */
    method AcquireState(l: Logger, f: Formatter?, pick: nat) returns (s: PState)
      requires Usable() && LoggerOk(l) && (f != null ==> f.caches == caches)
      modifies this`free, this`all, all, set t | t in all :: t.fieldBuf
      ensures Usable() && Held(s)
      ensures old(Clean()) ==> Carries(s, l, EncoderFor(l, f), [])
      ensures old(CleanBut(pick)) ==> Clean()
      ensures Taken(old(free), pick, free, s) && (pick >= |old(free)| ==> fresh(s) && fresh(s.fieldBuf))
      ensures pick < |old(free)| ==> s.overflow == old(free[pick].overflow)
      ensures EncoderFor(l, f).None? ==> Holds(s, l, None, s.overflow)
      ensures s.visible == BUFFER
      ensures all == old(all) + {s} && (s in old(all) || (fresh(s) && fresh(s.fieldBuf)))
    {
      s := Get(pick);
      SelectPath(s, l, f);
    }

    method SelectPath(s: PState, l: Logger, f: Formatter?)
      requires Usable() && Held(s) && LoggerOk(l) && (f != null ==> f.caches == caches)
      requires s.count == 0 && s.visible == BUFFER && s.directJSON == null && s.directFields == []
      modifies s`directJSON, s`count, s.fieldBuf
      ensures Usable() && Held(s) && (s.overflow == [] ==> Carries(s, l, EncoderFor(l, f), []))
      ensures EncoderFor(l, f).None? ==> Holds(s, l, None, s.overflow)
    {
      if l.direct {
        s.directJSON := f;
      }
      if s.directJSON == null {
        s.PrefillBound(l.bound);
      }
      HeldIsPrivate(s);
    }

    /** A state for a line that must be captured. */
    method CaptureState(l: Logger, pick: nat) returns (s: PState)
      requires Valid() && LoggerOk(l)
      modifies this`free, this`all, all, set t | t in all :: t.fieldBuf
      ensures Valid() && Held(s) && Carries(s, l, None, [])
      ensures all == old(all) + {s} && (s in old(all) || (fresh(s) && fresh(s.fieldBuf)))
    {
      s := Get(pick);
      label taken:
      s.PrefillBound(l.bound);
      HeldIsPrivate@taken(s);
    }

    // ---- Dispatch ----

    method Deliver(l: Logger, r: Record)
      requires LoggerOk(l)
      modifies this`events
      ensures events == old(events) + Delivered(l, r)
    {
      if l.discard {
        events := events + [Discarded];
      } else if l.adapters == 1 {
        events := events + [Wrote(0, r)];
        assert Writes(1, r) == Writes(0, r) + [Wrote(0, r)] == [Wrote(0, r)];
      } else {
        for i := 0 to l.adapters
          invariant events == old(events) + Writes(i, r)
        {
          events := events + [Wrote(i, r)];
        }
      }
    }

    method Count(l: Logger, level: nat)
      modifies this`events
      ensures events == old(events) + CountedIf(l, level)
    {
      if l.metrics {
        events := events + [Counted(level)];
      }
    }

    /** The finished line of the direct path: header, call site, bound bytes, encoded fields, closer. */
    method AssembleLine(l: Logger, f: Formatter, directFields: bytes, level: nat, msg: bytes, now: int, site: Site,
                        ghost fields: seq<TypedFieldData>) returns (line: bytes)
      requires caches.Valid() && f.caches == caches && LoggerOk(l) && directFields == FieldsText(fields)
      modifies caches
      ensures caches.Valid()
      ensures line == RecordText(EncoderOf(f), WithSite(l, LineRecord(l, level, msg, now, fields), site))
    {
      line := f.AppendHeader([], now, level, msg);
      ghost var head := HeaderText(f.Stamp(), f.prec, now, level, msg);
      assert line == head;
      if l.recordCaller && site.file != [] {
        line := AppendCaller(line, site.file, site.line);
      }
      ghost var r := WithSite(l, LineRecord(l, level, msg, now, fields), site);
      assert line == head + CallerPart(r.file, r.line);
      if |l.boundBytes| > 0 {
        line := line + l.boundBytes;
      }
      line := line + directFields;
      line := line + CLOSER;
      FieldsTextConcat(l.bound, fields);
      Regrouped(head + CallerPart(r.file, r.line), l.boundBytes, directFields, CLOSER);
    }

    method DispatchDirect(l: Logger, s: PState, level: nat, msg: bytes, now: int, site: Site,
                          ghost enc: Encoder, ghost fields: seq<TypedFieldData>, ghost id: int)
      requires PoolOk() && OthersOk(id) && LoggerOk(l) && s in all && s !in free && NotShared(s, id)
      requires Holds(s, l, Some(enc), fields)
      modifies this`free, this`events, s, caches
      ensures PoolOk() && OthersOk(id) && s.epoch == old(s.epoch) + 1 && free == old(free) + [s]
      ensures events == old(events) + Rendered(l, enc, LineRecord(l, level, msg, now, fields), site)
    {
      RenderAndPut(l, s, level, msg, now, site, fields, id);
      End(level);
      RenderedInTurn(old(events), l, enc, LineRecord(l, level, msg, now, fields), site);
    }

    method RenderAndPut(l: Logger, s: PState, level: nat, msg: bytes, now: int, site: Site,
                        ghost fields: seq<TypedFieldData>, ghost id: int)
      requires PoolOk() && OthersOk(id) && LoggerOk(l) && s in all && s !in free && NotShared(s, id)
      requires s.directJSON != null && s.directFields == FieldsText(fields)
      modifies this`free, this`events, s, caches
      ensures PoolOk() && OthersOk(id) && s.epoch == old(s.epoch) + 1 && free == old(free) + [s]
      ensures var r := WithSite(l, LineRecord(l, level, msg, now, fields), site);
              events == old(events) + [WroteRaw(RecordText(EncoderOf(old(s.directJSON)), r))] + CountedIf(l, level)
    {
      EmitDirect(l, s, level, msg, now, site, fields);
      OwnerMayChange(s, id);
      Put(s, id);
    }

    method EmitDirect(l: Logger, s: PState, level: nat, msg: bytes, now: int, site: Site,
                      ghost fields: seq<TypedFieldData>)
      requires caches.Valid() && LoggerOk(l)
      requires s.directJSON != null && s.directJSON.caches == caches && s.directFields == FieldsText(fields)
      modifies this`events, s`lineBuf, caches
      ensures caches.Valid()
      ensures var r := WithSite(l, LineRecord(l, level, msg, now, fields), site);
              events == old(events) + [WroteRaw(RecordText(EncoderOf(s.directJSON), r))] + CountedIf(l, level)
    {
      s.lineBuf := AssembleLine(l, s.directJSON, s.directFields, level, msg, now, site, fields);
      events := events + [WroteRaw(s.lineBuf)];
      Count(l, level);
    }

    /** What Fatal and Panic do after their line, with the state already back in the pool. */
    method End(level: nat)
      modifies this`events
      ensures events == old(events) + After(level)
    {
      if level == FATAL {
        events := events + [Flushed, Exited];
      } else if level == PANIC {
        events := events + [Panicked];
      }
    }

    /** Resolves the call site, masks, delivers, counts; the pooled entry does not carry the site on. */
    method EmitKept(l: Logger, s: PState, level: nat, site: Site)
      requires LoggerOk(l) && s.count <= s.visible <= s.fieldBuf.Length && s.file == [] && s.line == 0
      modifies this`events, s`file, s`line
      ensures s.file == [] && s.line == 0
      ensures events == old(events) + Emitted(l, WithSite(l, old(RecordOf(s.Entry())), site), level)
    {
      if l.recordCaller {
        s.file, s.line := site.file, site.line;
      }
      var seen := RecordOf(s.Entry());
      assert seen == WithSite(l, old(RecordOf(s.Entry())), site);
      if l.masker.Some? {
        seen := l.masker.value(seen);
      }
      Deliver(l, seen);
      if l.recordCaller {
        s.file, s.line := [], 0;
      }
      Count(l, level);
    }

    /** Samples first, so a dropped line pays no stack walk and no masking. */
    method EmitCaptured(l: Logger, s: PState, level: nat, site: Site) returns (kept: bool)
      requires LoggerOk(l) && s.count <= s.visible <= s.fieldBuf.Length
      requires s.file == [] && s.line == 0 && s.level == level
      modifies this`events, s`file, s`line
      ensures s.file == [] && s.line == 0
      ensures kept ==> events + After(level) == old(events) + Captured(l, old(RecordOf(s.Entry())), site)
      ensures !kept ==> events == old(events) + Captured(l, old(RecordOf(s.Entry())), site)
    {
      ghost var r := RecordOf(s.Entry());
      ghost var tail := Emitted(l, WithSite(l, r, site), level);
      if l.sampler.Some? && level < FATAL {
        events := events + [Sampled(RecordOf(s.Entry()))];
        if !l.sampler.value(RecordOf(s.Entry())) {
          return false;
        }
      }
      EmitKept(l, s, level, site);
      Assoc3(old(events), [Sampled(r)], tail, After(level));
      Assoc3(old(events), [], tail, After(level));
      return true;
    }

    method DispatchCaptured(l: Logger, s: PState, level: nat, msg: bytes, now: int, site: Site,
                            ghost fields: seq<TypedFieldData>, ghost id: int)
      requires PoolOk() && OthersOk(id) && LoggerOk(l) && s in all && s !in free && NotShared(s, id)
      requires Holds(s, l, None, fields)
      modifies this`free, this`events, s
      ensures PoolOk() && OthersOk(id) && s.epoch == old(s.epoch) + 1 && free == old(free) + [s]
      ensures events == old(events) + Captured(l, LineRecord(l, level, msg, now, fields), site)
      ensures s.count == 0 && s.visible == old(s.count) && s.directJSON == old(s.directJSON)
    {
      var kept := CaptureAndPut(l, s, level, msg, now, site, fields, id);
      if kept {
        End(level);
      }
    }

    method CaptureAndPut(l: Logger, s: PState, level: nat, msg: bytes, now: int, site: Site,
                         ghost fields: seq<TypedFieldData>, ghost id: int) returns (kept: bool)
      requires PoolOk() && OthersOk(id) && LoggerOk(l) && s in all && s !in free && NotShared(s, id)
      requires s.Shape() && s.Captured() == l.bound + fields
      modifies this`free, this`events, s
      ensures PoolOk() && OthersOk(id) && s.epoch == old(s.epoch) + 1 && free == old(free) + [s]
      ensures kept ==> events + After(level) == old(events) + Captured(l, LineRecord(l, level, msg, now, fields), site)
      ensures !kept ==> events == old(events) + Captured(l, LineRecord(l, level, msg, now, fields), site)
      ensures s.count == 0 && s.visible == old(s.count) && s.directJSON == old(s.directJSON)
    {
      s.Fill(l, level, msg, now, fields);
      kept := EmitCaptured(l, s, level, site);
      OwnerMayChange(s, id);
      Put(s, id);
    }

    /**
     * Renders a finished line and returns its state to the pool. A state already recycled is left alone: the epoch
     * the caller captured no longer matches.
     */
    method DispatchLine(l: Logger, s: PState, epoch: nat, level: nat, msg: bytes, now: int, site: Site,
                        ghost enc: Option<Encoder>, ghost fields: seq<TypedFieldData>, ghost id: int)
      requires PoolOk() && OthersOk(id) && LoggerOk(l) && s in all
      requires s.epoch == epoch ==> s !in free && NotShared(s, id) && Holds(s, l, enc, fields)
      modifies this`free, this`events, s, caches
      ensures PoolOk() && OthersOk(id)
      ensures old(s.epoch) != epoch ==> events == old(events) && free == old(free) && s.epoch == old(s.epoch)
      ensures old(s.epoch) == epoch ==> events == old(events) + Dispatched(l, enc, level, msg, now, site, fields)
                                        && s.epoch == epoch + 1 && free == old(free) + [s]
      ensures old(s.epoch) == epoch && level >= l.threshold && old(s.directJSON) == null ==>
                s.count == 0 && s.visible == old(s.count) && s.directJSON == null
    {
      if s.epoch != epoch {
        return;
      }
      if level < l.threshold {
        Put(s, id);
        return;
      }
      if s.directJSON != null {
        DispatchDirect(l, s, level, msg, now, site, enc.value, fields, id);
      } else {
        DispatchCaptured(l, s, level, msg, now, site, fields, id);
      }
    }

    // ---- Line handles ----

    /** ln is disabled, or it is the handle line number id was opened with. */
    ghost predicate IsHandle(ln: Line, id: nat)
      reads this`lines
    {
      ln.s != null ==> id < |lines| && lines[id].handle == ln && lines[id].leveled
    }

    /** The handle is enabled and its line is not finished. */
    ghost predicate Unfinished(ln: Line, id: nat)
      requires IsHandle(ln, id)
      reads this`lines
    {
      ln.s != null && !lines[id].spec.done
    }

    /** Recording a further line, or a change to one, touches no pooled state. */
    twostate lemma LinesRecorded(new id: int)
      requires old(PoolOk()) && old(OthersOk(id))
      requires unchanged(`free) && unchanged(`all) && unchanged(all) && unchanged(caches)
      requires forall t :: t in all ==> unchanged(t.fieldBuf)
      requires 0 <= id <= |old(lines)|
      requires |lines| == if id < |old(lines)| then |old(lines)| else id + 1
      requires forall i :: 0 <= i < |old(lines)| && i != id ==> lines[i] == old(lines)[i]
      requires HandleOk(lines[id])
      requires forall i :: 0 <= i < |lines| && i != id ==> lines[i].handle != lines[id].handle
      ensures Valid()
    {
      forall i | 0 <= i < |lines| ensures HandleOk(lines[i]) {
        assert i != id ==> old(HandleOk(lines[i]));
      }
    }

    method OwnState(l: Logger, f: Formatter?, level: nat, pick: nat) returns (s: PState)
      requires Valid() && LoggerOk(l) && (f != null ==> f.caches == caches)
      modifies this`free, this`all, all, set t | t in all :: t.fieldBuf
      ensures Valid() && Held(s) && Carries(s, l, EncoderFor(l, f), []) && s.owner == Some(l) && s.lineLevel == level
      ensures all == old(all) + {s} && (s in old(all) || (fresh(s) && fresh(s.fieldBuf)))
      ensures Taken(old(free), pick, free, s)
    {
      s := AcquireState(l, f, pick);
      SetOwner(s, l, level);
    }

    method SetOwner(s: PState, l: Logger, level: nat)
      requires Usable() && Held(s)
      modifies s`owner, s`lineLevel
      ensures Usable() && Held(s) && s.owner == Some(l) && s.lineLevel == level
    {
      s.owner := Some(l);
      s.lineLevel := level;
      HeldIsPrivate(s);
    }

    /** Opens a line; below the threshold it is disabled and costs nothing. */
    method OpenAt(l: Logger, f: Formatter?, level: nat, pick: nat) returns (ln: Line)
      requires Valid() && LoggerOk(l) && (f != null ==> f.caches == caches)
      modifies this`free, this`all, this`lines, all, set t | t in all :: t.fieldBuf
      ensures Valid()
      ensures forall t :: t in all ==> t in old(all) || (fresh(t) && fresh(t.fieldBuf))
      ensures level < l.threshold ==> ln.s == null && lines == old(lines)
      ensures level >= l.threshold && pick < |old(free)| ==> ln.s == old(free)[pick]
      ensures level >= l.threshold ==>
                && ln.s != null
                && lines == old(lines) + [Opened(ln, OpenLine(l, EncoderFor(l, f), level, [], false), true)]
    {
      if level < l.threshold {
        return Line(null, 0);
      }
      var s := OwnState(l, f, level, pick);
      ln := Line(s, s.epoch);
      ghost var o := Opened(ln, OpenLine(l, EncoderFor(l, f), level, [], false), true);
      label owned:
      lines := lines + [o];
      assert HandleOk(o);
      LinesRecorded@owned(|lines| - 1);
    }

    /** Adds a field to an unfinished line; on any other handle it does nothing. */
    method AddTo(ln: Line, kd: Option<FieldKey>, key: bytes, a: Arg, ghost id: nat)
      requires Valid() && IsHandle(ln, id)
      modifies this`lines, all, set t | t in all :: t.fieldBuf
      ensures Valid()
      ensures lines == if old(Unfinished(ln, id)) then old(lines)[id := WithField(old(lines[id]), FieldOf(kd, key, a))]
                       else old(lines)
    {
      assert ln.s != null ==> HandleOk(lines[id]);
      if ln.s == null || ln.s.epoch != ln.epoch {
        return;
      }
      AddLive(ln.s, kd, key, a, id);
    }

    method AddOwned(s: PState, kd: Option<FieldKey>, key: bytes, a: Arg, ghost o: OpenLine, ghost id: nat)
      requires PoolOk() && OthersOk(id) && s in all && s !in free && NotShared(s, id)
      requires Carries(s, o.l, o.enc, o.fields)
      modifies s`count, s`overflow, s`directFields, s.fieldBuf
      ensures PoolOk() && OthersOk(id) && Carries(s, o.l, o.enc, o.fields + [FieldOf(kd, key, a)])
      ensures s.overflow == if old(s.HasRoom()) then old(s.overflow) else old(s.overflow) + [FieldOf(kd, key, a)]
    {
      AddCarried(s, kd, key, a, o.l, o.enc, o.fields);
      OwnerMayChange(s, id);
    }

    method AddLive(s: PState, kd: Option<FieldKey>, key: bytes, a: Arg, ghost id: nat)
      requires Valid() && id < |lines| && lines[id].handle == Line(s, s.epoch)
      modifies this`lines, s`count, s`overflow, s`directFields, s.fieldBuf
      ensures Valid()
      ensures s.overflow == if old(s.HasRoom()) then old(s.overflow) else old(s.overflow) + [FieldOf(kd, key, a)]
      ensures lines == old(lines)[id := WithField(old(lines[id]), FieldOf(kd, key, a))]
    {
      ghost var o := lines[id];
      assert HandleOk(o);
      AddOwned(s, kd, key, a, o.spec, id);
      label added:
      lines := lines[id := WithField(o, FieldOf(kd, key, a))];
      assert HandleOk(lines[id]);
      LinesRecorded@added(id);
    }

    /** Finishes a line: it is written once, and its handle goes stale. */
    method Msg(ln: Line, msg: bytes, now: int, site: Site, ghost id: nat)
      requires Valid() && IsHandle(ln, id)
      modifies this`free, this`events, this`lines, all, caches
      ensures Valid()
      ensures lines == if old(Unfinished(ln, id)) then old(lines)[id := Finished(old(lines[id]))] else old(lines)
      ensures events == old(events)
                        + if old(Unfinished(ln, id)) then Written(old(lines[id].spec), msg, now, site) else []
    {
      assert ln.s != null ==> HandleOk(lines[id]);
      if ln.s == null || ln.s.epoch != ln.epoch {
        return;
      }
      MsgLive(ln.s, ln.epoch, msg, now, site, id);
    }

    method MsgLive(s: PState, epoch: nat, msg: bytes, now: int, site: Site, ghost id: nat)
      requires Valid() && id < |lines| && lines[id].handle == Line(s, epoch) && s.epoch == epoch && lines[id].leveled
      modifies this`free, this`events, this`lines, s, caches
      ensures Valid()
      ensures lines == old(lines)[id := Finished(old(lines[id]))]
      ensures events == old(events) + Written(old(lines[id].spec), msg, now, site)
    {
      assert HandleOk(lines[id]);
      FinishLive(s.owner.value, s, epoch, s.lineLevel, msg, now, site, id);
    }

    method FinishLive(l: Logger, s: PState, epoch: nat, level: nat, msg: bytes, now: int, site: Site, ghost id: nat)
      requires Valid() && id < |lines| && lines[id].handle == Line(s, epoch) && s.epoch == epoch
      requires lines[id].spec.l == l
      modifies this`free, this`events, this`lines, s, caches
      ensures Valid()
      ensures lines == old(lines)[id := Finished(old(lines[id]))]
      ensures var o := old(lines[id].spec);
              events == old(events) + Dispatched(l, o.enc, level, msg, now, site, o.fields)
      ensures s.epoch == epoch + 1 && free == old(free) + [s]
      ensures level >= l.threshold && old(s.directJSON) == null ==>
                s.count == 0 && s.visible == old(s.count) && s.directJSON == null
    {
      ghost var o := lines[id];
      assert HandleOk(o) && NotShared(s, id);
      DispatchLine(l, s, epoch, level, msg, now, site, o.spec.enc, o.spec.fields, id);
      label written:
      lines := lines[id := Finished(o)];
      assert HandleOk(lines[id]);
      LinesRecorded@written(id);
    }
  }

  /**
   * A pooled state is in the pool or owned by one unfinished line, never both; no two unfinished lines own the same
   * one; and a finished line's handle never matches its state's epoch again.
   */
  lemma OneOwner(core: Core, i: nat)
    requires core.Valid() && i < |core.lines|
    ensures !core.lines[i].spec.done ==> core.lines[i].handle.s !in core.free
    ensures !core.lines[i].spec.done ==>
              forall j :: 0 <= j < |core.lines| && j != i && !core.lines[j].spec.done ==>
                core.lines[j].handle.s != core.lines[i].handle.s
    ensures core.lines[i].spec.done ==>
              core.lines[i].handle.s != null && core.lines[i].handle.epoch < core.lines[i].handle.s.epoch
  {
    assert core.HandleOk(core.lines[i]);
    forall j | 0 <= j < |core.lines| && j != i && !core.lines[j].spec.done && !core.lines[i].spec.done
      ensures core.lines[j].handle.s != core.lines[i].handle.s
    {
      assert core.HandleOk(core.lines[j]);
    }
  }

  function WithField(o: Opened, f: TypedFieldData): Opened {
    o.(spec := o.spec.(fields := o.spec.fields + [f]))
  }

  function Finished(o: Opened): Opened {
    o.(spec := o.spec.(done := true))
  }

  /** What finishing a line writes: its logger's bound fields and the fields added to it, and nothing else. */
  function Written(o: OpenLine, msg: bytes, now: int, site: Site): seq<Event> {
    Dispatched(o.l, o.enc, o.level, msg, now, site, o.fields)
  }

  lemma RenderedInTurn(before: seq<Event>, l: Logger, enc: Encoder, r: Record, site: Site)
    ensures before + [WroteRaw(RecordText(enc, WithSite(l, r, site)))] + CountedIf(l, r.level) + After(r.level)
         == before + Rendered(l, enc, r, site)
  {
    Assoc3(before, [WroteRaw(RecordText(enc, WithSite(l, r, site)))], CountedIf(l, r.level), After(r.level));
  }

  lemma Regrouped(h: bytes, b: bytes, d: bytes, z: bytes)
    ensures h + b + d + z == h + (b + d) + z
    ensures b == [] ==> h + d + z == h + (b + d) + z
  {
  }

  // ---- The two encoding paths ----

  datatype Field = Field(kd: Option<FieldKey>, key: bytes, a: Arg)

  function FieldsOf(args: seq<Field>): seq<TypedFieldData> {
    seq(|args|, i requires 0 <= i < |args| => FieldOf(args[i].kd, args[i].key, args[i].a))
  }

  lemma FieldsOfSnoc(args: seq<Field>, i: nat)
    requires i < |args|
    ensures FieldsOf(args[..i + 1]) == FieldsOf(args[..i]) + [FieldOf(args[i].kd, args[i].key, args[i].a)]
  {
  }

  /** The fields encoded as they come, by a line on the direct path. */
  method EncodeFields(l: Logger, f: Formatter, args: seq<Field>) returns (d: PState)
    requires LoggerOk(l)
    ensures fresh(d) && fresh(d.fieldBuf) && Carries(d, l, Some(EncoderOf(f)), FieldsOf(args))
  {
    d := new PState();
    d.directJSON := f;
    for i := 0 to |args|
      invariant Carries(d, l, Some(EncoderOf(f)), FieldsOf(args[..i]))
    {
      AddCarried(d, args[i].kd, args[i].key, args[i].a, l, Some(EncoderOf(f)), FieldsOf(args[..i]));
      FieldsOfSnoc(args, i);
    }
    assert args[..|args|] == args;
  }

  /** The fields captured, after the bound ones, by a line on the capture path. */
  method CaptureFields(l: Logger, args: seq<Field>) returns (c: PState)
    requires LoggerOk(l)
    ensures fresh(c) && fresh(c.fieldBuf) && c.file == [] && c.line == 0 && Carries(c, l, None, FieldsOf(args))
  {
    c := new PState();
    c.PrefillBound(l.bound);
    assert l.bound + [] == l.bound;
    for i := 0 to |args|
      invariant c.file == [] && c.line == 0 && Carries(c, l, None, FieldsOf(args[..i]))
    {
      AddCarried(c, args[i].kd, args[i].key, args[i].a, l, None, FieldsOf(args[..i]));
      FieldsOfSnoc(args, i);
    }
    assert args[..|args|] == args;
  }

  /** The captured entry, completed as the dispatch point completes it, through the formatter. */
  method FormatCaptured(l: Logger, f: Formatter, args: seq<Field>, level: nat, msg: bytes, now: int, site: Site)
    returns (formatted: bytes)
    requires f.caches.Valid() && LoggerOk(l)
    modifies f.caches
    ensures f.caches.Valid()
    ensures formatted == RecordText(EncoderOf(f), WithSite(l, LineRecord(l, level, msg, now, FieldsOf(args)), site))
  {
    var c := CaptureFields(l, args);
    c.Fill(l, level, msg, now, FieldsOf(args));
    if l.recordCaller {
      c.file, c.line := site.file, site.line;
    }
    assert RecordOf(c.Entry()) == WithSite(l, LineRecord(l, level, msg, now, FieldsOf(args)), site);
    formatted := f.Format(Some(c.Entry()), []);
  }

  /**
   * One line encoded both ways. For every argument list, however many fields go past the buffer, and with or without a
   * recorded call site, the bytes assembled from directly encoded fields are those the formatter gives the captured
   * entry.
   */
  method EncodeBothWays(core: Core, l: Logger, f: Formatter, args: seq<Field>, level: nat, msg: bytes, now: int,
                        site: Site) returns (direct: bytes, formatted: bytes)
    requires core.caches.Valid() && f.caches == core.caches && LoggerOk(l)
    modifies core.caches
    ensures core.caches.Valid() && direct == formatted
    ensures direct == RecordText(EncoderOf(f), WithSite(l, LineRecord(l, level, msg, now, FieldsOf(args)), site))
  {
    var d := EncodeFields(l, f, args);
    direct := core.AssembleLine(l, f, d.directFields, level, msg, now, site, FieldsOf(args));
    formatted := FormatCaptured(l, f, args, level, msg, now, site);
  }
}
