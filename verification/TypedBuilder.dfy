/** The typed field builder: its terminals compare epochs, its field setters do not (core/fluent_typed.go, pool.go). */
module TypedBuilder {
  import opened Bytes
  import opened Types
  import opened Json
  import opened Logging
  import opened Lines
  import HeaderCache

  /** A builder: its logger, and the state and epoch taken with its first field (no state before that). */
  datatype Builder = Builder(l: Logger, handle: Line)

  function Typed(l: Logger): Builder {
    Builder(l, Line(null, 0))
  }

  /** b took its state as line number id. */
  ghost predicate IsBuilder(core: Core, b: Builder, id: nat)
    reads core`lines
  {
    && b.handle.s != null && id < |core.lines|
    && core.lines[id].handle == b.handle && core.lines[id].spec.l == b.l && !core.lines[id].leveled
  }

  /** The guard of the terminals and of every Line setter. */
  predicate Current(b: Builder)
    requires b.handle.s != null
    reads b.handle.s`epoch
  {
    b.handle.s.epoch == b.handle.epoch
  }

  /** Line number j is unfinished and owns the state. */
  ghost predicate Owns(core: Core, j: nat, s: PState)
    reads core`lines, s`epoch
  {
    j < |core.lines| && core.lines[j].handle == Line(s, s.epoch)
  }

  ghost predicate Unowned(core: Core, s: PState)
    reads core`lines, s`epoch
  {
    forall j: nat :: !Owns(core, j, s)
  }

  /**
   * A further field in this state harms nobody: no unfinished line owns it, and if it is pooled the field does not go
   * past its buffer, because it was left on the direct path or its trimmed slice has room.
   */
  ghost predicate Harmless(core: Core, s: PState)
    reads core`lines, core`free, s`epoch, s`directJSON, s`count, s`visible
  {
    Unowned(core, s) && (s in core.free ==> s.HasRoom())
  }

  /** The first field takes a pooled state for the line. */
  method Acquire(core: Core, l: Logger, f: Formatter?, pick: nat) returns (b: Builder)
    requires core.Valid() && LoggerOk(l) && (f != null ==> f.caches == core.caches)
    modifies core`free, core`all, core`lines, core.all, set t | t in core.all :: t.fieldBuf
    ensures core.Valid() && b.l == l && b.handle.s in core.all && b.handle.epoch == b.handle.s.epoch
    ensures core.lines == old(core.lines) + [Opened(b.handle, OpenLine(l, EncoderFor(l, f), 0, [], false), false)]
    ensures core.all == old(core.all) + {b.handle.s}
    ensures b.handle.s in old(core.all) || (fresh(b.handle.s) && fresh(b.handle.s.fieldBuf))
    ensures Taken(old(core.free), pick, core.free, b.handle.s) && b.handle.s.visible == BUFFER
    ensures pick >= |old(core.free)| ==> fresh(b.handle.s) && fresh(b.handle.s.fieldBuf)
  {
    var s := core.AcquireState(l, f, pick);
    b := Builder(l, Line(s, s.epoch));
    label acquired:
    core.lines := core.lines + [Opened(b.handle, OpenLine(l, EncoderFor(l, f), 0, [], false), false)];
    assert core.HandleOk(core.lines[|core.lines| - 1]);
    core.LinesRecorded@acquired(|core.lines| - 1);
  }

  /**
   * A setter once the builder has a state. It checks nothing, so the pool and every other line stay as they should be
   * if and only if the builder is still current, or the state it holds on to can take the field without harm.
   */
  method AddField(core: Core, b: Builder, kd: Option<FieldKey>, key: bytes, a: Arg, ghost id: nat)
    requires core.Valid() && IsBuilder(core, b, id)
    modifies core`lines, b.handle.s`count, b.handle.s`overflow, b.handle.s`directFields, b.handle.s.fieldBuf
    ensures core.lines == if !old(Current(b)) then old(core.lines)
                          else old(core.lines)[id := WithField(old(core.lines[id]), FieldOf(kd, key, a))]
    ensures core.Valid() <==> old(Current(b) || Harmless(core, b.handle.s))
    ensures !old(Current(b)) ==> Landed(core, b.handle.s, FieldOf(kd, key, a))
    ensures !old(Current(b)) && old(Unowned(core, b.handle.s)) ==> core.Usable()
    ensures b.handle.s.overflow == old(b.handle.s.overflow)
                                   + if old(b.handle.s.HasRoom()) then [] else [FieldOf(kd, key, a)]
    ensures !old(Current(b)) && b.handle.s.directJSON == null && old(b.handle.s.count) < b.handle.s.visible ==>
              b.handle.s.count == old(b.handle.s.count) + 1
  {
    assert core.HandleOk(core.lines[id]);
    if b.handle.s.epoch == b.handle.epoch {
      core.AddLive(b.handle.s, kd, key, a, id);
    } else {
      AddStale(core, b.handle.s, kd, key, a);
    }
  }

  /** Whatever unfinished line owns s now has f as its last field, as if it had been added to that line. */
  ghost predicate Landed(core: Core, s: PState, f: TypedFieldData)
    reads core, core.all, core.free, core.caches, s, s.fieldBuf, set t | t in core.all :: t.fieldBuf
  {
    forall j: nat :: Owns(core, j, s) ==>
      var o := core.lines[j].spec;
      core.PoolOk() && core.OthersOk(j) && s in core.all && s !in core.free && core.NotShared(s, j)
      && Carries(s, o.l, o.enc, o.fields + [f])
  }

  /** The field lands in the line that owns the state, which then no longer carries just its own fields. */
  twostate lemma VictimTakes(core: Core, new s: PState, new f: TypedFieldData, new j: nat)
    requires old(allocated(s)) && old(core.Valid()) && old(Owns(core, j, s))
    requires unchanged(core) && unchanged(core.caches)
    requires core.StateOk(s) && s.epoch == old(s.epoch) && (old(s.WellFormed()) ==> s.WellFormed())
    requires s.directJSON == old(s.directJSON) && old(s.Shape())
    requires s.directJSON != null ==> s.directFields == old(s.directFields) + FieldText(f)
    requires s.directJSON == null && old(s.WellFormed()) ==> s.Captured() == old(s.Captured()) + [f]
    requires s.owner == old(s.owner) && s.lineLevel == old(s.lineLevel)
    requires forall t :: t in core.all && t != s ==> unchanged(t) && unchanged(t.fieldBuf)
    ensures Landed(core, s, f) && !core.Valid()
    ensures s !in core.free
  {
    assert old(core.HandleOk(core.lines[j])) && old(core.NotShared(s, j));
    core.OwnerMayChange(s, j);
    var o := core.lines[j].spec;
    AddKeepsCarries(o.l.bound, o.fields, f);
    TooMany(s, o.l, o.enc, o.fields, f);
    assert !core.HandleOk(core.lines[j]);
  }

  lemma TooMany(s: PState, l: Logger, enc: Option<Encoder>, fields: seq<TypedFieldData>, f: TypedFieldData)
    requires Carries(s, l, enc, fields + [f])
    ensures !Carries(s, l, enc, fields)
  {
    FieldsTextSnoc(fields, f);
    assert FieldText(f) != [];
    if enc.None? {
      assert |l.bound + (fields + [f])| == |l.bound + fields| + 1;
    } else {
      assert |FieldsText(fields + [f])| > |FieldsText(fields)|;
    }
  }

  /** Nobody owns the state: open lines are undisturbed, and the pool is as it should be unless the field overflows. */
  twostate lemma NobodyTakes(core: Core, new s: PState, new f: TypedFieldData)
    requires old(allocated(s)) && old(core.Valid()) && s in core.all && old(Unowned(core, s))
    requires unchanged(core) && unchanged(core.caches) && core.StateOk(s) && s.epoch == old(s.epoch)
    requires s.overflow == old(s.overflow) + if old(s.HasRoom()) then [] else [f]
    requires forall t :: t in core.all && t != s ==> unchanged(t) && unchanged(t.fieldBuf)
    ensures core.Usable() && (core.Valid() <==> old(Harmless(core, s)))
  {
    assert old(core.NotShared(s, -1)) by {
      forall i | 0 <= i < |old(core.lines)| && old(core.lines[i].handle.s) == s
        ensures old(core.lines[i].handle.epoch) < old(s.epoch)
      {
        assert old(core.HandleOk(core.lines[i])) && !old(Owns(core, i, s));
      }
    }
    core.HeldIsPrivate(s);
  }

  method AddStale(core: Core, s: PState, kd: Option<FieldKey>, key: bytes, a: Arg)
    requires core.Valid() && s in core.all
    modifies s`count, s`overflow, s`directFields, s.fieldBuf
    ensures core.Valid() <==> old(Harmless(core, s))
    ensures Landed(core, s, FieldOf(kd, key, a)) && (old(Unowned(core, s)) ==> core.Usable())
    ensures s.overflow == old(s.overflow) + if old(s.HasRoom()) then [] else [FieldOf(kd, key, a)]
    ensures s.count == old(s.count) + if s.directJSON == null && old(s.count) < s.visible then 1 else 0
  {
    label before:
    s.Add(kd, key, a);
    if !Unowned(core, s) {
      ghost var j: nat :| Owns(core, j, s);
      VictimTakes@before(core, s, FieldOf(kd, key, a), j);
    } else {
      NobodyTakes@before(core, s, FieldOf(kd, key, a));
    }
  }

  /** WithString and its kin: take a state with the first field, then add the field. */
  method Set(core: Core, b: Builder, f: Formatter?, kd: Option<FieldKey>, key: bytes, a: Arg, pick: nat, ghost id: nat)
    returns (b': Builder)
    requires core.Valid() && LoggerOk(b.l) && (f != null ==> f.caches == core.caches)
    requires b.handle.s != null ==> IsBuilder(core, b, id)
    modifies core`free, core`all, core`lines, core.all, set t | t in core.all :: t.fieldBuf
    ensures core.Valid() <==> b.handle.s == null || old(Current(b) || Harmless(core, b.handle.s))
    ensures b.handle.s == null ==>
              b'.l == b.l && core.lines == old(core.lines)
              + [Opened(b'.handle, OpenLine(b.l, EncoderFor(b.l, f), 0, [FieldOf(kd, key, a)], false), false)]
    ensures b.handle.s != null ==>
              && b' == b
              && core.lines == if !old(Current(b)) then old(core.lines)
                               else old(core.lines)[id := WithField(old(core.lines[id]), FieldOf(kd, key, a))]
  {
    if b.handle.s == null {
      b' := Acquire(core, b.l, f, pick);
      assert IsBuilder(core, b', |core.lines| - 1) && Current(b');
      AddField(core, b', kd, key, a, |core.lines| - 1);
      assert [] + [FieldOf(kd, key, a)] == [FieldOf(kd, key, a)];
    } else {
      assert core.HandleOk(core.lines[id]);
      AddField(core, b, kd, key, a, id);
      b' := b;
    }
  }

  /**
   * A terminal of a builder that has taken a state (without one it calls the level's specialised function): the line
   * is written once, and through a stale builder nothing happens.
   */
  method Finish(core: Core, b: Builder, level: nat, msg: bytes, now: int, site: Site, ghost id: nat)
    requires core.Valid() && IsBuilder(core, b, id) && LoggerOk(b.l)
    modifies core`free, core`events, core`lines, b.handle.s, core.caches
    ensures core.Valid()
    ensures core.lines == if !old(Current(b)) then old(core.lines)
                          else old(core.lines)[id := Finished(old(core.lines[id]))]
    ensures var o := old(core.lines[id].spec);
            core.events == old(core.events)
                           + if old(Current(b)) then Dispatched(b.l, o.enc, level, msg, now, site, o.fields) else []
    ensures old(Current(b)) ==> b.handle.s.epoch == b.handle.epoch + 1 && core.free == old(core.free) + [b.handle.s]
    ensures old(Current(b)) && level >= b.l.threshold && old(b.handle.s.directJSON) == null ==>
              b.handle.s.count == 0 && b.handle.s.visible == old(b.handle.s.count) && b.handle.s.directJSON == null
  {
    assert core.HandleOk(core.lines[id]);
    if b.handle.s.epoch == b.handle.epoch {
      core.FinishLive(b.l, b.handle.s, b.handle.epoch, level, msg, now, site, id);
    }
  }

  // ---- What a stale builder does ----

  /**
   * Whenever a stale builder's state is owned by an unfinished line, of any logger, that line is written with the
   * field added through the builder.
   */
  method StaleAddLands(core: Core, b: Builder, key: bytes, a: Arg, msg: bytes, now: int, site: Site,
                       ghost id: nat, ghost j: nat)
    requires core.Valid() && IsBuilder(core, b, id) && !Current(b) && Owns(core, j, b.handle.s) && core.lines[j].leveled
    modifies core`free, core`events, core`lines, b.handle.s, b.handle.s.fieldBuf, core.caches
    ensures core.lines == old(core.lines)
    ensures var o := core.lines[j].spec;
            core.events == old(core.events) + Written(o.(fields := o.fields + [FieldOf(None, key, a)]), msg, now, site)
  {
    var s := b.handle.s;
    assert core.HandleOk(core.lines[id]) && core.HandleOk(core.lines[j]);
    ghost var o := core.lines[j].spec;
    AddField(core, b, None, key, a, id);
    assert Owns(core, j, s);
    core.DispatchLine(s.owner.value, s, s.epoch, s.lineLevel, msg, now, site, o.enc,
                      o.fields + [FieldOf(None, key, a)], j);
  }

  /**
   * Whenever a stale builder's state is pooled without room, the field is kept past the buffer, where taking the state
   * does not clear it: the next line to take it, of any logger, is written with that field and none of its own.
   */
  method StaleAddLeaks(core: Core, b: Builder, key: bytes, a: Arg, next: Logger, level: nat, msg: bytes, now: int,
                       site: Site, pick: nat, ghost id: nat)
    requires core.Valid() && IsBuilder(core, b, id) && !Current(b) && Unowned(core, b.handle.s)
    requires pick < |core.free| && core.free[pick] == b.handle.s && !b.handle.s.HasRoom() && LoggerOk(next)
    modifies core`free, core`all, core`events, core`lines, core.all, core.caches, set t | t in core.all :: t.fieldBuf
    ensures core.events == old(core.events) + Dispatched(next, None, level, msg, now, site, [FieldOf(None, key, a)])
  {
    var s := b.handle.s;
    assert core.HandleOk(core.lines[id]) && s.overflow == [];
    AddField(core, b, None, key, a, id);
    assert core.CleanBut(pick) && core.free[pick].overflow == [] + [FieldOf(None, key, a)] == [FieldOf(None, key, a)];
    WriteNext(core, next, level, msg, now, site, pick);
  }

  /** The next line of any logger, given no field, on whatever state place pick of the pool holds. */
  method WriteNext(core: Core, next: Logger, level: nat, msg: bytes, now: int, site: Site, pick: nat)
    requires core.Usable() && core.CleanBut(pick) && pick < |core.free| && LoggerOk(next)
    modifies core`free, core`all, core`events, core.all, core.caches, set t | t in core.all :: t.fieldBuf
    ensures core.events == old(core.events)
                           + Dispatched(next, None, level, msg, now, site, old(core.free[pick].overflow))
  {
    ghost var left := core.free[pick].overflow;
    var s := core.AcquireState(next, null, pick);
    core.DispatchLine(next, s, s.epoch, level, msg, now, site, None, left, -1);
  }

  method OneField(core: Core, l: Logger, key: bytes, a: Arg) returns (b: Builder)
    requires core.Valid() && core.lines == [] && core.free == [] && LoggerOk(l)
    modifies core`free, core`all, core`lines, core.all, set t | t in core.all :: t.fieldBuf
    ensures core.Valid() && IsBuilder(core, b, 0) && Current(b) && b.l == l && |core.lines| == 1
    ensures core.lines[0].spec.enc.None? && core.lines[0].spec.fields == [FieldOf(None, key, a)]
    ensures core.all == old(core.all) + {b.handle.s} && fresh(b.handle.s) && fresh(b.handle.s.fieldBuf)
    ensures core.free == [] && b.handle.s.directJSON == null && b.handle.s.count == |l.bound| + 1
  {
    b := Acquire(core, l, null, 0);
    assert core.HandleOk(core.lines[0]) && b.handle.s.Captured() == l.bound;
    AddField(core, b, None, key, a, 0);
    assert core.HandleOk(core.lines[0]) && core.lines[0].spec.fields == [FieldOf(None, key, a)];
    assert |b.handle.s.Captured()| == |l.bound| + 1;
  }

  /** A line of one field through a typed builder, from an empty pool; its state is left trimmed to that field. */
  method OneTypedLine(core: Core, l: Logger, level: nat, key: bytes, a: Arg, msg: bytes, now: int, site: Site)
    returns (b: Builder)
    requires core.Valid() && core.lines == [] && core.free == [] && LoggerOk(l) && level >= l.threshold
    modifies core`free, core`all, core`lines, core`events, core.all, core.caches, set t | t in core.all :: t.fieldBuf
    ensures core.Valid() && IsBuilder(core, b, 0) && !Current(b) && b.l == l && |core.lines| == 1
    ensures core.all == old(core.all) + {b.handle.s} && fresh(b.handle.s) && fresh(b.handle.s.fieldBuf)
    ensures core.free == [b.handle.s]
    ensures b.handle.s.count == 0 && b.handle.s.visible == |l.bound| + 1 && b.handle.s.directJSON == null
    ensures core.events == old(core.events) + Dispatched(l, None, level, msg, now, site, [FieldOf(None, key, a)])
  {
    b := OneField(core, l, key, a);
    Finish(core, b, level, msg, now, site, 0);
  }

  /** A line opened on the recycled state, with no field of its own, is written with the stale one. */
  method ReopenedTakesStale(core: Core, b: Builder, l: Logger, level: nat, key: bytes, a: Arg, msg: bytes, now: int,
                            site: Site)
    requires core.Valid() && IsBuilder(core, b, 0) && !Current(b) && |core.lines| == 1 && core.free == [b.handle.s]
    requires LoggerOk(l) && level >= l.threshold
    modifies core`free, core`all, core`lines, core`events, core.all, core.caches, set t | t in core.all :: t.fieldBuf
    ensures |core.lines| == 2 && core.lines[1].spec.fields == []
    ensures core.events == old(core.events) + Dispatched(l, None, level, msg, now, site, [FieldOf(None, key, a)])
  {
    assert core.HandleOk(core.lines[0]);
    var ln := core.OpenAt(l, null, level, 0);
    assert core.HandleOk(core.lines[1]) && core.HandleOk(core.lines[0]);
    assert Owns(core, 1, ln.s) && [] + [FieldOf(None, key, a)] == [FieldOf(None, key, a)];
    StaleAddLands(core, b, key, a, msg, now, site, 0, 1);
  }

  /**
   * From an empty pool: a typed line is written, a second line is opened on its recycled state and given no field,
   * and a field added through the first line's builder is written in the second line.
   */
  method LandingIsReached(caches: HeaderCache.Caches, l: Logger, level: nat, first: Arg, stale: Arg, key: bytes,
                          msg: bytes, now: int, site: Site) returns (core: Core)
    requires caches.Valid() && LoggerOk(l) && level >= l.threshold
    modifies caches
    ensures |core.lines| == 2 && core.lines[1].spec.fields == []
    ensures core.events == Dispatched(l, None, level, msg, now, site, [FieldOf(None, key, first)])
                           + Dispatched(l, None, level, msg, now, site, [FieldOf(None, key, stale)])
  {
    core := new Core(caches);
    var b := OneTypedLine(core, l, level, key, first, msg, now, site);
    assert core.all == {b.handle.s};
    ReopenedTakesStale(core, b, l, level, key, stale, msg, now, site);
  }

  /** The first stale field takes the one place the trimmed slice has; the second goes past the buffer. */
  method SecondStaleLeaks(core: Core, b: Builder, l: Logger, level: nat, key: bytes, first: Arg, second: Arg,
                          msg: bytes, now: int, site: Site)
    requires core.Valid() && IsBuilder(core, b, 0) && !Current(b) && |core.lines| == 1 && core.free == [b.handle.s]
    requires b.handle.s.directJSON == null && b.handle.s.count == 0 && b.handle.s.visible == 1 && LoggerOk(l)
    modifies core`free, core`all, core`events, core`lines, core.all, core.caches, set t | t in core.all :: t.fieldBuf
    ensures core.events == old(core.events) + Dispatched(l, None, level, msg, now, site, [FieldOf(None, key, second)])
  {
    assert core.HandleOk(core.lines[0]) && Unowned(core, b.handle.s);
    AddField(core, b, None, key, first, 0);
    assert Unowned(core, b.handle.s);
    StaleAddLeaks(core, b, key, second, l, level, msg, now, site, 0, 0);
  }

  /**
   * From an empty pool: a one-field typed line is written, two fields are added through its builder, and the second of
   * them is written in the next line.
   */
  method LeakIsReached(caches: HeaderCache.Caches, l: Logger, level: nat, first: Arg, stale: Arg, key: bytes,
                       msg: bytes, now: int, site: Site) returns (core: Core)
    requires caches.Valid() && LoggerOk(l) && level >= l.threshold && l.bound == []
    modifies caches
    ensures core.events == Dispatched(l, None, level, msg, now, site, [FieldOf(None, key, first)])
                           + Dispatched(l, None, level, msg, now, site, [FieldOf(None, key, stale)])
  {
    core := new Core(caches);
    var b := OneTypedLine(core, l, level, key, first, msg, now, site);
    assert core.all == {b.handle.s};
    SecondStaleLeaks(core, b, l, level, key, first, stale, msg, now, site);
  }
}
