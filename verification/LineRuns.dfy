/** Any run of opens, field adds, terminals and stale reuse of line handles (core/line.go). */
module LineRuns {
  import opened Bytes
  import opened Types
  import opened Json
  import opened Logging
  import opened Lines
  import HeaderCache

  /** A call an application makes. id is the number of the open that returned the handle being used. */
  datatype Call =
    | OpenCall(l: Logger, f: Formatter?, level: nat, pick: nat)
    | AddCall(id: nat, kd: Option<FieldKey>, key: bytes, a: Arg)
    | MsgCall(id: nat, msg: bytes, now: int, site: Site)

  /** What the calls mean when every line is a record of its own, with no pool and no reuse. */
  datatype Meaning = Meaning(lines: seq<OpenLine>, events: seq<Event>)

  function Opens(calls: seq<Call>): nat {
    if calls == [] then 0 else Opens(calls[..|calls| - 1]) + if calls[|calls| - 1].OpenCall? then 1 else 0
  }

  /** Handles come from earlier opens; nothing else is asked of the caller. */
  predicate Scoped(calls: seq<Call>) {
    calls != [] ==>
      var front, last := calls[..|calls| - 1], calls[|calls| - 1];
      Scoped(front) && (last.OpenCall? ==> LoggerOk(last.l)) && (!last.OpenCall? ==> last.id < Opens(front))
  }

  function Step(m: Meaning, c: Call): Meaning
    requires !c.OpenCall? ==> c.id < |m.lines|
  {
    match c
    case OpenCall(l, f, level, _) =>
      m.(lines := m.lines + [OpenLine(l, EncoderFor(l, f), level, [], level < l.threshold)])
    case AddCall(id, kd, key, a) =>
      if m.lines[id].done then m
      else m.(lines := m.lines[id := m.lines[id].(fields := m.lines[id].fields + [FieldOf(kd, key, a)])])
    case MsgCall(id, msg, now, site) =>
      if m.lines[id].done then m
      else Meaning(m.lines[id := m.lines[id].(done := true)], m.events + Written(m.lines[id], msg, now, site))
  }

  function Run(calls: seq<Call>): (m: Meaning)
    requires Scoped(calls)
    ensures |m.lines| == Opens(calls)
  {
    if calls == [] then Meaning([], []) else Step(Run(calls[..|calls| - 1]), calls[|calls| - 1])
  }

  // ---- Lines do not mix ----

  /** The calls made on line id. */
  function On(calls: seq<Call>, id: nat): seq<Call> {
    if calls == [] then []
    else
      var last := calls[|calls| - 1];
      On(calls[..|calls| - 1], id) + if !last.OpenCall? && last.id == id then [last] else []
  }

  /** The call that opened line id. */
  function OpenOf(calls: seq<Call>, id: nat): (c: Call)
    requires id < Opens(calls)
    ensures c.OpenCall?
  {
    var front, last := calls[..|calls| - 1], calls[|calls| - 1];
    if id < Opens(front) then OpenOf(front, id) else last
  }

  function FinishedBy(own: seq<Call>): bool {
    exists k :: 0 <= k < |own| && own[k].MsgCall?
  }

  /** The fields a line's own calls add: those before its first terminal. */
  function Added(own: seq<Call>): seq<TypedFieldData> {
    if own == [] then []
    else
      var front, last := own[..|own| - 1], own[|own| - 1];
      Added(front) + if last.AddCall? && !FinishedBy(front) then [FieldOf(last.kd, last.key, last.a)] else []
  }

  lemma FinishedBySnoc(own: seq<Call>, c: Call)
    ensures FinishedBy(own + [c]) <==> FinishedBy(own) || c.MsgCall?
  {
    assert (own + [c])[|own|] == c;
    if FinishedBy(own) {
      var k :| 0 <= k < |own| && own[k].MsgCall?;
      assert (own + [c])[k].MsgCall?;
    }
  }

  lemma AddedSnoc(own: seq<Call>, c: Call)
    ensures Added(own + [c]) == Added(own) + if c.AddCall? && !FinishedBy(own) then [FieldOf(c.kd, c.key, c.a)] else []
  {
    assert (own + [c])[..|own|] == own;
  }

  lemma {:induction false} OnNoneYet(calls: seq<Call>, id: nat)
    requires Scoped(calls) && id >= Opens(calls)
    ensures On(calls, id) == []
  {
    if calls != [] {
      OnNoneYet(calls[..|calls| - 1], id);
    }
  }

  /** What a call on a line does to that line. */
  function OnLine(o: OpenLine, c: Call): OpenLine {
    if o.done then o
    else match c
      case OpenCall(_, _, _, _) => o
      case AddCall(_, kd, key, a) => o.(fields := o.fields + [FieldOf(kd, key, a)])
      case MsgCall(_, _, _, _) => o.(done := true)
  }

  lemma StepIsLocal(m: Meaning, c: Call, id: nat)
    requires (!c.OpenCall? ==> c.id < |m.lines|) && id < |m.lines|
    ensures Step(m, c).lines[id] == if !c.OpenCall? && c.id == id then OnLine(m.lines[id], c) else m.lines[id]
  {
  }

  ghost predicate IsOwn(o: OpenLine, c: Call, own: seq<Call>)
    requires c.OpenCall?
  {
    && o.l == c.l && o.enc == EncoderFor(c.l, c.f) && o.level == c.level
    && (o.done <==> c.level < c.l.threshold || FinishedBy(own))
    && o.fields == if c.level < c.l.threshold then [] else Added(own)
  }

  lemma OwnStep(o: OpenLine, c: Call, own: seq<Call>, next: Call)
    requires c.OpenCall? && !next.OpenCall? && IsOwn(o, c, own)
    ensures IsOwn(OnLine(o, next), c, own + [next])
  {
    FinishedBySnoc(own, next);
    AddedSnoc(own, next);
  }

  /**
   * Each line's state is its own: its logger and level are those it was opened with, its fields are exactly those
   * its own calls added before its first terminal, and no call on another handle, stale or not, plays a part.
   */
  lemma {:induction false} LinesDoNotMix(calls: seq<Call>, id: nat)
    requires Scoped(calls) && id < Opens(calls)
    ensures IsOwn(Run(calls).lines[id], OpenOf(calls, id), On(calls, id))
  {
    var front, last := calls[..|calls| - 1], calls[|calls| - 1];
    if id < Opens(front) {
      LinesDoNotMix(front, id);
      StepIsLocal(Run(front), last, id);
      if !last.OpenCall? && last.id == id {
        OwnStep(Run(front).lines[id], OpenOf(front, id), On(front, id), last);
      } else {
        assert On(front, id) + [] == On(front, id);
      }
    } else {
      OnNoneYet(front, id);
      assert On(calls, id) == [];
    }
  }

  // ---- The pooled implementation ----

  /** The handle number k of the run is the one the pool knows as line number ids[k]. */
  ghost predicate Matches(core: Core, handle: Line, id: nat, o: OpenLine)
    reads core
  {
    if handle.s == null then o.done else id < |core.lines| && core.lines[id] == Opened(handle, o, true)
  }

  ghost predicate AllMatch(core: Core, handles: seq<Line>, ids: seq<nat>, lines: seq<OpenLine>)
    reads core
  {
    && |handles| == |ids| == |lines|
    && (forall k :: 0 <= k < |lines| ==> Matches(core, handles[k], ids[k], lines[k]))
    && (forall j, k :: 0 <= j < k < |ids| && handles[j].s != null && handles[k].s != null ==> ids[j] != ids[k])
  }

  /** One call, made through the pool, keeps the match with the run's meaning. */
  method Perform(core: Core, c: Call, handles: seq<Line>, ghost ids: seq<nat>, ghost m: Meaning)
    returns (handles': seq<Line>, ghost ids': seq<nat>)
    requires core.Valid() && AllMatch(core, handles, ids, m.lines)
    requires if c.OpenCall? then LoggerOk(c.l) && (c.f != null ==> c.f.caches == core.caches) else c.id < |handles|
    modifies core, core.caches, core.all, set t | t in core.all :: t.fieldBuf
    ensures core.Valid() && AllMatch(core, handles', ids', Step(m, c).lines)
    ensures core.events == old(core.events) + Step(m, c).events[|m.events|..]
    ensures m.events <= Step(m, c).events
    ensures forall s :: s in core.all ==> s in old(core.all) || (fresh(s) && fresh(s.fieldBuf))
  {
    if c.OpenCall? {
      handles', ids' := PerformOpen(core, c, handles, ids, m);
    } else {
      PerformOn(core, c, handles, ids, m);
      handles', ids' := handles, ids;
    }
  }

  method PerformOpen(core: Core, c: Call, handles: seq<Line>, ghost ids: seq<nat>, ghost m: Meaning)
    returns (handles': seq<Line>, ghost ids': seq<nat>)
    requires core.Valid() && AllMatch(core, handles, ids, m.lines)
    requires c.OpenCall? && LoggerOk(c.l) && (c.f != null ==> c.f.caches == core.caches)
    modifies core`free, core`all, core`lines, core.all, set t | t in core.all :: t.fieldBuf
    ensures core.Valid() && AllMatch(core, handles', ids', Step(m, c).lines)
    ensures forall s :: s in core.all ==> s in old(core.all) || (fresh(s) && fresh(s.fieldBuf))
  {
    ghost var next := |core.lines|;
    var ln := core.OpenAt(c.l, c.f, c.level, c.pick);
    handles', ids' := handles + [ln], ids + [next];
  }

  method PerformOn(core: Core, c: Call, handles: seq<Line>, ghost ids: seq<nat>, ghost m: Meaning)
    requires core.Valid() && AllMatch(core, handles, ids, m.lines) && !c.OpenCall? && c.id < |handles|
    modifies core`free, core`events, core`lines, core.caches, core.all, set t | t in core.all :: t.fieldBuf
    ensures core.Valid() && AllMatch(core, handles, ids, Step(m, c).lines)
    ensures core.events == old(core.events) + Step(m, c).events[|m.events|..] && m.events <= Step(m, c).events
  {
    ghost var id := ids[c.id];
    assert Matches(core, handles[c.id], id, m.lines[c.id]);
    match c {
      case AddCall(k, kd, key, a) => core.AddTo(handles[k], kd, key, a, id);
      case MsgCall(k, msg, now, site) => core.Msg(handles[k], msg, now, site, id);
    }
  }

  /**
   * Every run through the pool writes what the run means: the same events in the same order, however the pool
   * reuses states and however stale handles are used.
   */
  method Execute(caches: HeaderCache.Caches, calls: seq<Call>) returns (core: Core)
    requires caches.Valid() && Scoped(calls)
    requires forall k :: 0 <= k < |calls| && calls[k].OpenCall? && calls[k].f != null ==> calls[k].f.caches == caches
    modifies caches
    ensures core.Valid() && core.events == Run(calls).events
  {
    core := new Core(caches);
    var handles: seq<Line> := [];
    ghost var ids: seq<nat> := [];
    for n := 0 to |calls|
      invariant core.Valid() && fresh(core) && core.caches == caches && Scoped(calls[..n])
      invariant forall s :: s in core.all ==> fresh(s) && fresh(s.fieldBuf)
      invariant core.events == Run(calls[..n]).events
      invariant AllMatch(core, handles, ids, Run(calls[..n]).lines)
    {
      NextCall(calls, n);
      handles, ids := Perform(core, calls[n], handles, ids, Run(calls[..n]));
    }
    assert calls[..|calls|] == calls;
  }

  lemma NextCall(calls: seq<Call>, n: nat)
    requires Scoped(calls) && n < |calls|
    ensures Scoped(calls[..n]) && Scoped(calls[..n + 1])
    ensures var c := calls[n]; if c.OpenCall? then LoggerOk(c.l) else c.id < |Run(calls[..n]).lines|
    ensures Run(calls[..n + 1]) == Step(Run(calls[..n]), calls[n])
  {
    ScopedPrefix(calls, n + 1);
    assert calls[..n + 1][..n] == calls[..n];
  }

  lemma {:induction false} ScopedPrefix(calls: seq<Call>, n: nat)
    requires Scoped(calls) && n <= |calls|
    ensures Scoped(calls[..n])
    decreases |calls|
  {
    if n == |calls| {
      assert calls[..n] == calls;
    } else {
      assert calls[..|calls| - 1][..n] == calls[..n];
      ScopedPrefix(calls[..|calls| - 1], n);
    }
  }
}
