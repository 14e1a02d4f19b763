/** What a log line means: the logger's configuration, the record an adapter sees, and the events of one line. */
module Logging {
  import opened Bytes
  import opened Types
  import opened Json

  // ---- Loggers ----

  /** Where a line was logged; the zero site has no file. */
  datatype Site = Site(file: bytes, line: nat)

  datatype Config = Config(level: nat, component: bytes, adapters: nat,
                           firstIsDiscard: bool, firstIsDirectCapable: bool,
                           enableMasking: bool, masker: Option<Record -> Record>,
                           enableSampling: bool, sampler: Option<Record -> bool>,
                           enableMetrics: bool, enableCaller: bool)

  /** A logger after construction. direct: the sole adapter takes raw lines and may expose an encoder. */
  datatype Logger = Logger(threshold: nat, component: bytes, adapters: nat, discard: bool,
                           masker: Option<Record -> Record>, sampler: Option<Record -> bool>, metrics: bool,
                           recordCaller: bool, bound: seq<TypedFieldData>, boundBytes: bytes, direct: bool)

  const MAX_BOUND_FIELDS: nat := 32

  predicate BoundOk(bound: seq<TypedFieldData>, boundBytes: bytes) {
    |bound| <= MAX_BOUND_FIELDS && boundBytes == FieldsText(bound)
  }

  /** What every logger satisfies: in particular masking or sampling rules out the direct path. */
  predicate LoggerOk(l: Logger) {
    && (l.discard ==> l.adapters == 1 && !l.recordCaller)
    && (l.direct ==> l.adapters == 1 && !l.discard && l.masker.None? && l.sampler.None?)
    && BoundOk(l.bound, l.boundBytes)
  }

  function NewLogger(c: Config): (l: Logger)
    ensures LoggerOk(l) && l.bound == []
    ensures c.enableMasking && c.masker.Some? ==> !l.direct
  {
    var discard := c.adapters == 1 && c.firstIsDiscard;
    var masker := if c.enableMasking then c.masker else None;
    var sampler := if c.enableSampling then c.sampler else None;
    Logger(c.level, c.component, c.adapters, discard, masker, sampler, c.enableMetrics,
           c.enableCaller && !discard, [], [],
           c.adapters == 1 && !discard && masker.None? && sampler.None? && c.firstIsDirectCapable)
  }

  // ---- Events ----

  /** What one log call does, in order. */
  datatype Event =
    | Sampled(r: Record)
    | Wrote(adapter: nat, r: Record)
    | WroteRaw(line: bytes)
    | Discarded
    | Counted(level: nat)
    | Flushed
    | Exited
    | Panicked

  function Writes(n: nat, r: Record): seq<Event> {
    if n == 0 then [] else Writes(n - 1, r) + [Wrote(n - 1, r)]
  }

  /** Handing a record to every adapter; the discard adapter ignores what it is given. */
  function Delivered(l: Logger, r: Record): seq<Event> {
    if l.discard then [Discarded] else Writes(l.adapters, r)
  }

  function Masked(l: Logger, r: Record): Record {
    if l.masker.Some? then l.masker.value(r) else r
  }

  function CountedIf(l: Logger, level: nat): seq<Event> {
    if l.metrics then [Counted(level)] else []
  }

  /** What a level does after its line: Fatal flushes and exits, Panic panics. */
  function After(level: nat): seq<Event> {
    if level == FATAL then [Flushed, Exited] else if level == PANIC then [Panicked] else []
  }

  /** The record of a line before masking and before its call site is known: bound fields, then its own. */
  function LineRecord(l: Logger, level: nat, msg: bytes, now: int, fields: seq<TypedFieldData>): Record {
    Record(level, now, l.component, msg, [], 0, l.bound + fields)
  }

  function WithSite(l: Logger, r: Record, site: Site): Record {
    if l.recordCaller then r.(file := site.file, line := site.line) else r
  }

  /** The capture path: sample, resolve the site, mask, deliver, count. */
  function Captured(l: Logger, r: Record, site: Site): seq<Event> {
    if l.sampler.Some? && r.level < FATAL then
      [Sampled(r)] + if l.sampler.value(r) then Emitted(l, WithSite(l, r, site), r.level) + After(r.level) else []
    else
      Emitted(l, WithSite(l, r, site), r.level) + After(r.level)
  }

  function Emitted(l: Logger, r: Record, level: nat): seq<Event> {
    Delivered(l, Masked(l, r)) + CountedIf(l, level)
  }

  /** The direct path: one raw line. */
  function Rendered(l: Logger, enc: Encoder, r: Record, site: Site): seq<Event> {
    [WroteRaw(RecordText(enc, WithSite(l, r, site)))] + CountedIf(l, r.level) + After(r.level)
  }

  /**
   * The meaning of one finished line: nothing below the threshold, else the direct or the capture path applied to
   * one and the same record.
   */
  function Dispatched(l: Logger, enc: Option<Encoder>, level: nat, msg: bytes, now: int, site: Site,
                      fields: seq<TypedFieldData>): seq<Event>
  {
    var r := LineRecord(l, level, msg, now, fields);
    if level < l.threshold then []
    else match enc
      case Some(e) => Rendered(l, e, r, site)
      case None => Captured(l, r, site)
  }

  lemma {:induction false} WritesAre(n: nat, r: Record)
    ensures |Writes(n, r)| == n && forall i: nat :: i < n ==> Writes(n, r)[i] == Wrote(i, r)
  {
    if n > 0 {
      WritesAre(n - 1, r);
    }
  }

  lemma EmittedMasked(l: Logger, r: Record, level: nat, i: nat)
    requires l.masker.Some? && i < |Emitted(l, r, level)|
    ensures !Emitted(l, r, level)[i].WroteRaw?
    ensures Emitted(l, r, level)[i].Wrote? ==> Emitted(l, r, level)[i].r == l.masker.value(r)
  {
    WritesAre(l.adapters, Masked(l, r));
  }

  lemma CapturedMasked(l: Logger, r: Record, site: Site, i: nat)
    requires l.masker.Some? && i < |Captured(l, r, site)|
    ensures !Captured(l, r, site)[i].WroteRaw?
    ensures Captured(l, r, site)[i].Wrote? ==> Captured(l, r, site)[i].r == l.masker.value(WithSite(l, r, site))
  {
    var skip := if l.sampler.Some? && r.level < FATAL then 1 else 0;
    var written := Emitted(l, WithSite(l, r, site), r.level);
    if skip <= i < skip + |written| && (skip == 0 || l.sampler.value(r)) {
      EmittedMasked(l, WithSite(l, r, site), r.level, i - skip);
    }
  }

  /** With masking on nothing is written raw, and every record written is the mask of the line's record. */
  lemma MaskedFirst(l: Logger, enc: Option<Encoder>, level: nat, msg: bytes, now: int, site: Site,
                    fields: seq<TypedFieldData>, i: nat)
    requires LoggerOk(l) && l.masker.Some? && (enc.Some? ==> l.direct)
    requires i < |Dispatched(l, enc, level, msg, now, site, fields)|
    ensures var ev := Dispatched(l, enc, level, msg, now, site, fields)[i];
            && !ev.WroteRaw?
            && (ev.Wrote? ==> ev.r == l.masker.value(WithSite(l, LineRecord(l, level, msg, now, fields), site)))
  {
    CapturedMasked(l, LineRecord(l, level, msg, now, fields), site, i);
  }
}
