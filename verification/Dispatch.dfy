/**
 * The functions chosen at startup for message-only lines, against the single dispatch point (core/logger.go,
 * logger_specialized.go).
 */
module Dispatch {
  import opened Bytes
  import opened Sequences
  import opened Types
  import opened Json
  import opened Logging
  import opened Lines

  /** A slot of the hot state: which specialised function, and the level built into it. */
  datatype Func =
    | Noop
    | CallerFunc(level: nat)
    | BoundFunc(level: nat)
    | SampledFunc(level: nat)
    | DirectFunc(level: nat)
    | DiscardFunc(level: nat)
    | NoMaskOne(level: nat)
    | NoMaskMulti(level: nat)
    | MaskOne(level: nat)
    | MaskMulti(level: nat)
    | RealTrace
    | RealFatal
    | RealPanic

  /** The function pointers a logger gets. */
  class HotState {
    var traceFunc: Func
    var debugFunc: Func
    var infoFunc: Func
    var warnFunc: Func
    var errorFunc: Func
    var fatalFunc: Func
    var panicFunc: Func

    function At(level: nat): Func
      reads this
    {
      match level
      case 0 => traceFunc
      case 1 => debugFunc
      case 2 => infoFunc
      case 3 => warnFunc
      case 4 => errorFunc
      case 5 => fatalFunc
      case _ => panicFunc
    }

    constructor (l: Logger)
      requires LoggerOk(l)
      ensures forall level: nat :: level <= ERROR ==> Suits(l, level, At(level))
      ensures FatalSuits(l, FATAL, fatalFunc) && FatalSuits(l, PANIC, panicFunc)
    {
      var level := l.threshold;
      traceFunc, debugFunc, infoFunc, warnFunc, errorFunc := Noop, Noop, Noop, Noop, Noop;
      fatalFunc, panicFunc := RealFatal, RealPanic;
      if l.recordCaller {
        traceFunc := if level <= TRACE then CallerFunc(TRACE) else Noop;
        debugFunc := if level <= DEBUG then CallerFunc(DEBUG) else Noop;
        infoFunc := if level <= INFO then CallerFunc(INFO) else Noop;
        warnFunc := if level <= WARN then CallerFunc(WARN) else Noop;
        errorFunc := if level <= ERROR then CallerFunc(ERROR) else Noop;
        if |l.bound| > 0 {
          fatalFunc, panicFunc := CallerFunc(FATAL), CallerFunc(PANIC);
        }
      } else if |l.bound| > 0 && !l.direct && !l.discard {
        traceFunc := if level <= TRACE then BoundFunc(TRACE) else Noop;
        debugFunc := if level <= DEBUG then BoundFunc(DEBUG) else Noop;
        infoFunc := if level <= INFO then BoundFunc(INFO) else Noop;
        warnFunc := if level <= WARN then BoundFunc(WARN) else Noop;
        errorFunc := if level <= ERROR then BoundFunc(ERROR) else Noop;
        fatalFunc, panicFunc := BoundFunc(FATAL), BoundFunc(PANIC);
      } else if l.sampler.Some? {
        traceFunc := if level <= TRACE then SampledFunc(TRACE) else Noop;
        debugFunc := if level <= DEBUG then SampledFunc(DEBUG) else Noop;
        infoFunc := if level <= INFO then SampledFunc(INFO) else Noop;
        warnFunc := if level <= WARN then SampledFunc(WARN) else Noop;
        errorFunc := if level <= ERROR then SampledFunc(ERROR) else Noop;
      } else if l.direct {
        traceFunc := if level <= TRACE then DirectFunc(TRACE) else Noop;
        debugFunc := if level <= DEBUG then DirectFunc(DEBUG) else Noop;
        infoFunc := if level <= INFO then DirectFunc(INFO) else Noop;
        warnFunc := if level <= WARN then DirectFunc(WARN) else Noop;
        errorFunc := if level <= ERROR then DirectFunc(ERROR) else Noop;
        if |l.bound| > 0 {
          fatalFunc, panicFunc := BoundFunc(FATAL), BoundFunc(PANIC);
        }
      } else if l.discard {
        traceFunc := if level <= TRACE then DiscardFunc(TRACE) else Noop;
        debugFunc := if level <= DEBUG then DiscardFunc(DEBUG) else Noop;
        infoFunc := if level <= INFO then DiscardFunc(INFO) else Noop;
        warnFunc := if level <= WARN then DiscardFunc(WARN) else Noop;
        errorFunc := if level <= ERROR then DiscardFunc(ERROR) else Noop;
        fatalFunc, panicFunc := DiscardFunc(FATAL), DiscardFunc(PANIC);
      } else {
        if level <= INFO {
          if l.masker.Some? {
            infoFunc := if l.adapters == 1 then MaskOne(INFO) else MaskMulti(INFO);
          } else {
            infoFunc := if l.adapters == 1 then NoMaskOne(INFO) else NoMaskMulti(INFO);
          }
        }
        if level <= DEBUG {
          if l.masker.Some? {
            debugFunc := if l.adapters == 1 then MaskOne(DEBUG) else MaskMulti(DEBUG);
          } else {
            debugFunc := if l.adapters == 1 then NoMaskOne(DEBUG) else NoMaskMulti(DEBUG);
          }
        }
        if level <= WARN {
          if l.masker.Some? {
            warnFunc := if l.adapters == 1 then MaskOne(WARN) else MaskMulti(WARN);
          } else {
            warnFunc := if l.adapters == 1 then NoMaskOne(WARN) else NoMaskMulti(WARN);
          }
        }
        if level <= ERROR {
          if l.masker.Some? {
            errorFunc := if l.adapters == 1 then MaskOne(ERROR) else MaskMulti(ERROR);
          } else {
            errorFunc := if l.adapters == 1 then NoMaskOne(ERROR) else NoMaskMulti(ERROR);
          }
        }
        if level <= TRACE {
          traceFunc := RealTrace;
        }
      }
    }
  }

  /** When each specialised function does what the single dispatch point would do at this level. */
  predicate Suits(l: Logger, level: nat, f: Func) {
    if level < l.threshold then f == Noop
    else
      var plain := !l.recordCaller && l.sampler.None? && !l.discard && !l.direct && l.bound == [];
      match f
      case Noop => false
      case CallerFunc(n) => n == level && l.recordCaller
      case BoundFunc(n) => n == level && !l.direct && !l.discard
      case SampledFunc(n) => n == level && l.sampler.Some? && !l.recordCaller && (l.bound == [] || l.discard)
      case DirectFunc(n) => n == level && l.direct && !l.recordCaller
      case DiscardFunc(n) => n == level && l.discard && l.sampler.None?
      case NoMaskOne(n) => n == level && plain && l.masker.None? && l.adapters == 1
      case NoMaskMulti(n) => n == level && plain && l.masker.None? && l.adapters != 1
      case MaskOne(n) => n == level && plain && l.masker.Some? && l.adapters == 1
      case MaskMulti(n) => n == level && plain && l.masker.Some? && l.adapters != 1
      case RealTrace => level == TRACE && plain
      case RealFatal => false
      case RealPanic => false
  }

  predicate FatalSuits(l: Logger, level: nat, f: Func) {
    match f
    case RealFatal => level == FATAL && (l.bound == [] || l.discard) && (l.discard ==> l.sampler.Some?)
    case RealPanic => level == PANIC && (l.bound == [] || l.discard) && (l.discard ==> l.sampler.Some?)
    case CallerFunc(n) => n == level && l.recordCaller && l.bound != []
    case BoundFunc(n) => n == level && !l.recordCaller && l.bound != [] && !l.discard
    case DiscardFunc(n) => n == level && l.discard && l.sampler.None?
    case _ => false
  }

  /** The masker rewrites content, never the level (masking/pii_masker.go). */
  ghost predicate KeepsLevel(l: Logger) {
    l.masker.Some? ==> forall r :: l.masker.value(r).level == r.level
  }

  // ---- The functions ----

  /** Masks when configured, writes to every adapter, counts the entry's level. */
  method WriteEntry(core: Core, l: Logger, entry: Record)
    requires LoggerOk(l) && KeepsLevel(l)
    modifies core`events
    ensures core.events == old(core.events) + Emitted(l, entry, entry.level)
  {
    var e := entry;
    if l.masker.Some? {
      e := l.masker.value(e);
    }
    core.Deliver(l, e);
    core.Count(l, e.level);
  }

  /** One adapter, no masking. */
  method WriteOne(core: Core, l: Logger, level: nat, msg: bytes, now: int)
    requires l.adapters == 1 && !l.discard && l.masker.None? && l.bound == []
    modifies core`events
    ensures core.events == old(core.events) + Emitted(l, LineRecord(l, level, msg, now, []), level)
  {
    var entry := Record(level, now, l.component, msg, [], 0, []);
    core.events := core.events + [Wrote(0, entry)];
    core.Count(l, level);
    OneWrite(entry);
    assert l.bound + [] == [];
  }

  method WriteOneMasked(core: Core, l: Logger, level: nat, msg: bytes, now: int)
    requires l.adapters == 1 && !l.discard && l.masker.Some? && l.bound == []
    modifies core`events
    ensures core.events == old(core.events) + Emitted(l, LineRecord(l, level, msg, now, []), level)
  {
    var entry := Record(level, now, l.component, msg, [], 0, []);
    entry := l.masker.value(entry);
    core.events := core.events + [Wrote(0, entry)];
    core.Count(l, level);
    OneWrite(entry);
    assert l.bound + [] == [];
  }

  method WriteMulti(core: Core, l: Logger, level: nat, msg: bytes, now: int)
    requires !l.discard && l.masker.None? && l.bound == []
    modifies core`events
    ensures core.events == old(core.events) + Emitted(l, LineRecord(l, level, msg, now, []), level)
  {
    var entry := Record(level, now, l.component, msg, [], 0, []);
    for i := 0 to l.adapters
      invariant core.events == old(core.events) + Writes(i, entry)
    {
      core.events := core.events + [Wrote(i, entry)];
    }
    core.Count(l, level);
    assert l.bound + [] == [];
  }

  method WriteMultiMasked(core: Core, l: Logger, level: nat, msg: bytes, now: int)
    requires !l.discard && l.masker.Some? && l.bound == []
    modifies core`events
    ensures core.events == old(core.events) + Emitted(l, LineRecord(l, level, msg, now, []), level)
  {
    var entry := Record(level, now, l.component, msg, [], 0, []);
    entry := l.masker.value(entry);
    for i := 0 to l.adapters
      invariant core.events == old(core.events) + Writes(i, entry)
    {
      core.events := core.events + [Wrote(i, entry)];
    }
    core.Count(l, level);
    assert l.bound + [] == [];
  }

  lemma OneWrite(r: Record)
    ensures Writes(1, r) == [Wrote(0, r)]
  {
    assert Writes(1, r) == Writes(0, r) + [Wrote(0, r)];
  }

  /** The pooled route: a state for the line, then the single dispatch point. */
  method LogCaller(core: Core, l: Logger, f: Formatter?, level: nat, msg: bytes, now: int, site: Site, pick: nat)
    requires core.Valid() && LoggerOk(l) && (f != null ==> f.caches == core.caches)
    modifies core`free, core`all, core`events, core.all, core.caches, set t | t in core.all :: t.fieldBuf
    ensures core.Valid()
    ensures core.events == old(core.events) + Dispatched(l, EncoderFor(l, f), level, msg, now, site, [])
  {
    var s := core.AcquireState(l, f, pick);
    core.DispatchLine(l, s, s.epoch, level, msg, now, site, EncoderFor(l, f), [], -1);
  }

  method LogBoundCapture(core: Core, l: Logger, level: nat, msg: bytes, now: int, site: Site, pick: nat)
    requires core.Valid() && LoggerOk(l)
    modifies core`free, core`all, core`events, core.all, core.caches, set t | t in core.all :: t.fieldBuf
    ensures core.Valid()
    ensures core.events == old(core.events) + Dispatched(l, None, level, msg, now, site, [])
  {
    var s := core.CaptureState(l, pick);
    core.DispatchLine(l, s, s.epoch, level, msg, now, site, None, [], -1);
  }

  /** The sampled route: an entry without bound fields is shown to the sampler and, if kept, emitted. */
  function SampledMeaning(l: Logger, level: nat, msg: bytes, now: int): seq<Event>
    requires l.sampler.Some?
  {
    var r := LineRecord(l, level, msg, now, []).(fields := []);
    [Sampled(r)] + if l.sampler.value(r) then Emitted(l, r, level) else []
  }

  method LogSampled(core: Core, l: Logger, level: nat, msg: bytes, now: int)
    requires LoggerOk(l) && KeepsLevel(l) && l.sampler.Some?
    modifies core`events
    ensures core.events == old(core.events) + SampledMeaning(l, level, msg, now)
  {
    var entry := Record(level, now, l.component, msg, [], 0, []);
    assert entry == LineRecord(l, level, msg, now, []).(fields := []);
    core.events := core.events + [Sampled(entry)];
    if l.sampler.value(entry) {
      WriteEntry(core, l, entry);
    }
    SampledFirst(old(core.events), l, entry, level);
  }

  lemma SampledFirst(before: seq<Event>, l: Logger, r: Record, level: nat)
    requires l.sampler.Some?
    ensures l.sampler.value(r) ==>
              before + [Sampled(r)] + Emitted(l, r, level) == before + ([Sampled(r)] + Emitted(l, r, level))
    ensures [Sampled(r)] + [] == [Sampled(r)]
  {
    Assoc(before, [Sampled(r)], Emitted(l, r, level));
  }

  /** Renders a message-only line straight to bytes, or captures it when the adapter's encoder is not the JSON one. */
  method LogDirect(core: Core, l: Logger, f: Formatter?, level: nat, msg: bytes, now: int, site: Site, pick: nat)
    requires core.Valid() && LoggerOk(l) && l.direct && !l.recordCaller && (f != null ==> f.caches == core.caches)
    requires l.threshold <= level < FATAL
    modifies core`free, core`all, core`events, core.all, core.caches, set t | t in core.all :: t.fieldBuf
    ensures core.Valid()
    ensures core.events == old(core.events) + Dispatched(l, EncoderFor(l, f), level, msg, now, site, [])
  {
    if f == null {
      LogBoundCapture(core, l, level, msg, now, site, pick);
      return;
    }
    var s := core.Get(pick);
    label taken:
    EmitMessage(core, l, f, s, level, msg, now, site);
    core.OwnerMayChange@taken(s, -1);
    core.Put(s, -1);
  }

  method EmitMessage(core: Core, l: Logger, f: Formatter, s: PState, level: nat, msg: bytes, now: int, site: Site)
    requires core.caches.Valid() && LoggerOk(l) && l.direct && !l.recordCaller && f.caches == core.caches
    requires l.threshold <= level < FATAL
    modifies core`events, s`lineBuf, core.caches
    ensures core.caches.Valid()
    ensures core.events == old(core.events) + Dispatched(l, EncoderFor(l, f), level, msg, now, site, [])
  {
    s.lineBuf := core.AssembleLine(l, f, [], level, msg, now, site, []);
    core.events := core.events + [WroteRaw(s.lineBuf)];
    core.Count(l, level);
    RenderedMessage(old(core.events), l, EncoderOf(f), level, msg, now, site);
  }

  lemma RenderedMessage(before: seq<Event>, l: Logger, enc: Encoder, level: nat, msg: bytes, now: int, site: Site)
    requires l.threshold <= level < FATAL
    ensures var r := LineRecord(l, level, msg, now, []);
            && before + [WroteRaw(RecordText(enc, WithSite(l, r, site)))] + CountedIf(l, level)
               == before + Dispatched(l, Some(enc), level, msg, now, site, [])
  {
    RenderedInTurn(before, l, enc, LineRecord(l, level, msg, now, []), site);
  }

  /** What the discard functions do: no entry is built, and Fatal exits without a flush. */
  function DiscardMeaning(l: Logger, level: nat): seq<Event> {
    [Discarded] + CountedIf(l, level) + if level == FATAL then [Exited] else if level == PANIC then [Panicked] else []
  }

  /**
   * On a discarding logger without a sampler that is all the dispatch point does too, whatever it masks or captures,
   * exactly for every level but Fatal, where the dispatch point flushes first.
   */
  lemma DiscardAgrees(l: Logger, level: nat, msg: bytes, now: int, site: Site, fields: seq<TypedFieldData>)
    requires l.discard && l.sampler.None? && level >= l.threshold
    ensures DiscardMeaning(l, level) == Dispatched(l, None, level, msg, now, site, fields) <==> level != FATAL
  {
    var ours, theirs := DiscardMeaning(l, level), Dispatched(l, None, level, msg, now, site, fields);
    assert theirs == [Discarded] + CountedIf(l, level) + After(level);
    if level == FATAL {
      assert |theirs| == |ours| + 1;
    }
  }

  method RealDiscard(core: Core, l: Logger, level: nat)
    requires LoggerOk(l) && l.discard
    modifies core`events
    ensures core.events == old(core.events) + DiscardMeaning(l, level)
  {
    core.events := core.events + [Discarded];
    core.Count(l, level);
    if level == FATAL {
      core.events := core.events + [Exited];
    } else if level == PANIC {
      core.events := core.events + [Panicked];
    }
  }

  /** Fatal and Panic of a root logger: write at every threshold, then flush and exit, or panic. */
  method RealTerminal(core: Core, l: Logger, level: nat, msg: bytes, now: int, site: Site)
    requires LoggerOk(l) && KeepsLevel(l) && (level == FATAL || level == PANIC)
    modifies core`events
    ensures core.events == old(core.events) + Captured(l, LineRecord(l, level, msg, now, []).(fields := []), site)
  {
    var entry := Record(level, now, l.component, msg, [], 0, []);
    if l.recordCaller {
      entry := entry.(file := site.file, line := site.line);
    }
    WriteEntry(core, l, entry);
    core.End(level);
  }

  // ---- Logging a message ----

  lemma EmitsBelowFatal(l: Logger, level: nat, msg: bytes, now: int, site: Site)
    requires l.threshold <= level < FATAL && !l.recordCaller && l.sampler.None?
    ensures Dispatched(l, None, level, msg, now, site, []) == Emitted(l, LineRecord(l, level, msg, now, []), level)
  {
  }

  /**
   * What Trace to Error mean: level filtering, then the dispatch point. A discarding logger that samples takes the
   * sampled route, which knows nothing of bound fields.
   */
  function MessageMeaning(l: Logger, f: Formatter?, level: nat, msg: bytes, now: int, site: Site): seq<Event> {
    if level >= l.threshold && l.discard && l.sampler.Some? then SampledMeaning(l, level, msg, now)
    else Dispatched(l, EncoderFor(l, f), level, msg, now, site, [])
  }

  /**
   * The chosen functions do what the dispatch point does, exactly unless the logger discards, samples and is bound:
   * then its sampler is not shown the bound fields.
   */
  lemma MessageAgrees(l: Logger, f: Formatter?, level: nat, msg: bytes, now: int, site: Site)
    requires LoggerOk(l) && level <= ERROR
    ensures MessageMeaning(l, f, level, msg, now, site) == Dispatched(l, EncoderFor(l, f), level, msg, now, site, [])
       <==> !(level >= l.threshold && l.discard && l.sampler.Some? && l.bound != [])
  {
    if level >= l.threshold && l.discard && l.sampler.Some? {
      SampledAgrees(l, level, msg, now, site);
    }
  }

  /** The sampled route agrees with the dispatch point exactly when nothing is bound. */
  lemma SampledAgrees(l: Logger, level: nat, msg: bytes, now: int, site: Site)
    requires l.threshold <= level < FATAL && !l.recordCaller && l.sampler.Some?
    ensures SampledMeaning(l, level, msg, now) == Dispatched(l, None, level, msg, now, site, []) <==> l.bound == []
  {
    var r := LineRecord(l, level, msg, now, []);
    assert l.bound + [] == l.bound == r.fields;
    assert Dispatched(l, None, level, msg, now, site, [])
        == [Sampled(r)] + if l.sampler.value(r) then Emitted(l, r, level) else [];
    if l.bound == [] {
      assert r.(fields := []) == r;
    } else {
      assert SampledMeaning(l, level, msg, now)[0] == Sampled(r.(fields := [])) != Sampled(r);
    }
  }

  /** Calls the specialised function of a level that has neither pool nor encoder to consult. */
  method CallPlain(core: Core, l: Logger, fn: Func, f: Formatter?, level: nat, msg: bytes, now: int, site: Site)
    requires LoggerOk(l) && KeepsLevel(l) && level <= ERROR && Suits(l, level, fn)
    requires !fn.CallerFunc? && !fn.BoundFunc? && !fn.DirectFunc?
    modifies core`events
    ensures core.events == old(core.events) + MessageMeaning(l, f, level, msg, now, site)
  {
    assert l.bound == [] ==> l.bound + [] == [];
    match fn {
      case Noop =>
      case SampledFunc(n) =>
        SampledAgrees(l, level, msg, now, site);
        LogSampled(core, l, n, msg, now);
      case DiscardFunc(n) =>
        DiscardAgrees(l, level, msg, now, site, []);
        RealDiscard(core, l, n);
      case NoMaskOne(n) =>
        EmitsBelowFatal(l, level, msg, now, site);
        WriteOne(core, l, n, msg, now);
      case NoMaskMulti(n) =>
        EmitsBelowFatal(l, level, msg, now, site);
        WriteMulti(core, l, n, msg, now);
      case MaskOne(n) =>
        EmitsBelowFatal(l, level, msg, now, site);
        WriteOneMasked(core, l, n, msg, now);
      case MaskMulti(n) =>
        EmitsBelowFatal(l, level, msg, now, site);
        WriteMultiMasked(core, l, n, msg, now);
      case RealTrace =>
        EmitsBelowFatal(l, level, msg, now, site);
        WriteEntry(core, l, Record(TRACE, now, l.component, msg, [], 0, []));
    }
  }

  /** Trace to Error: whatever function startup chose, the call does what MessageMeaning says. */
  method Log(core: Core, l: Logger, hot: HotState, f: Formatter?, level: nat, msg: bytes, now: int, site: Site,
             pick: nat)
    requires core.Valid() && LoggerOk(l) && KeepsLevel(l) && level <= ERROR && Suits(l, level, hot.At(level))
    requires f != null ==> f.caches == core.caches
    modifies core`free, core`all, core`events, core.all, core.caches, set t | t in core.all :: t.fieldBuf
    ensures core.Valid()
    ensures core.events == old(core.events) + MessageMeaning(l, f, level, msg, now, site)
  {
    var fn := hot.At(level);
    if fn.CallerFunc? {
      LogCaller(core, l, f, fn.level, msg, now, site, pick);
    } else if fn.BoundFunc? {
      LogBoundCapture(core, l, fn.level, msg, now, site, pick);
    } else if fn.DirectFunc? {
      LogDirect(core, l, f, fn.level, msg, now, site, pick);
    } else {
      CallPlain(core, l, fn, f, level, msg, now, site);
    }
  }

  /** What Fatal and Panic mean: the pooled route filters by level, a root logger writes at every threshold. */
  function TerminalMeaning(l: Logger, f: Formatter?, level: nat, msg: bytes, now: int, site: Site): seq<Event> {
    if l.discard && l.sampler.None? then DiscardMeaning(l, level)
    else if l.bound != [] && !l.discard then
      Dispatched(l, TerminalEncoder(l, f), level, msg, now, site, [])
    else Captured(l, LineRecord(l, level, msg, now, []).(fields := []), site)
  }

  /** Fatal and Panic are encoded directly only on the call-site route of a bound logger. */
  function TerminalEncoder(l: Logger, f: Formatter?): Option<Encoder> {
    if l.recordCaller && l.bound != [] then EncoderFor(l, f) else None
  }

  method LogTerminal(core: Core, l: Logger, fn: Func, f: Formatter?, level: nat, msg: bytes, now: int, site: Site,
                     pick: nat)
    requires core.Valid() && LoggerOk(l) && KeepsLevel(l) && (level == FATAL || level == PANIC)
    requires FatalSuits(l, level, fn) && (f != null ==> f.caches == core.caches)
    modifies core`free, core`all, core`events, core.all, core.caches, set t | t in core.all :: t.fieldBuf
    ensures core.Valid()
    ensures core.events == old(core.events) + TerminalMeaning(l, f, level, msg, now, site)
  {
    if fn.CallerFunc? {
      LogCaller(core, l, f, fn.level, msg, now, site, pick);
    } else if fn.BoundFunc? {
      LogBoundCapture(core, l, fn.level, msg, now, site, pick);
    } else {
      CallTerminal(core, l, fn, f, level, msg, now, site);
    }
  }

  method CallTerminal(core: Core, l: Logger, fn: Func, f: Formatter?, level: nat, msg: bytes, now: int, site: Site)
    requires LoggerOk(l) && KeepsLevel(l) && (level == FATAL || level == PANIC) && FatalSuits(l, level, fn)
    requires !fn.CallerFunc? && !fn.BoundFunc?
    modifies core`events
    ensures core.events == old(core.events) + TerminalMeaning(l, f, level, msg, now, site)
  {
    if fn.DiscardFunc? {
      RealDiscard(core, l, fn.level);
    } else {
      RealTerminal(core, l, level, msg, now, site);
    }
  }

  /**
   * Fatal and Panic agree with the dispatch point exactly when the level reaches the threshold or the logger is
   * bound and does not discard, and they are not a Fatal that a discard function handles, which never flushes.
   */
  lemma TerminalAgrees(l: Logger, f: Formatter?, level: nat, msg: bytes, now: int, site: Site)
    requires LoggerOk(l) && (level == FATAL || level == PANIC)
    ensures TerminalMeaning(l, f, level, msg, now, site)
         == Dispatched(l, TerminalEncoder(l, f), level, msg, now, site, [])
         <==> (level >= l.threshold || (l.bound != [] && !l.discard))
              && !(l.discard && l.sampler.None? && level == FATAL)
  {
    if l.discard && l.sampler.None? {
      if level >= l.threshold {
        DiscardAgrees(l, level, msg, now, site, []);
      }
    } else if l.bound == [] || l.discard {
      RootTerminal(l, level, msg, now, site);
    }
  }

  lemma RootTerminal(l: Logger, level: nat, msg: bytes, now: int, site: Site)
    requires LoggerOk(l) && (level == FATAL || level == PANIC) && (l.bound == [] || l.discard)
    ensures Captured(l, LineRecord(l, level, msg, now, []).(fields := []), site)
         == Dispatched(l, None, level, msg, now, site, [])
         <==> level >= l.threshold
  {
    var r := LineRecord(l, level, msg, now, []);
    assert l.bound == [] ==> l.bound + [] == [] && r.(fields := []) == r;
    assert |Captured(l, r.(fields := []), site)| >= |After(level)| > 0;
  }
}
