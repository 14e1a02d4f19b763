/** Every step of the ring keeps its invariant. */
module RingProof {
  import opened Bytes
  import opened Types
  import opened RingMath
  import opened Ring

  lemma InFlightKept(a: seq<Producer>, i: nat, p: Producer)
    requires i < |a| && a[i].Idle? == p.Idle?
    ensures InFlight(a[i := p]) == InFlight(a)
  {
  }

  lemma InFlightEnters(a: seq<Producer>, i: nat, p: Producer)
    requires i < |a| && a[i].Idle? && !p.Idle?
    ensures |InFlight(a[i := p])| == |InFlight(a)| + 1
  {
    assert InFlight(a[i := p]) == InFlight(a) + {i};
  }

  lemma InFlightLeaves(a: seq<Producer>, i: nat)
    requires i < |a| && !a[i].Idle?
    ensures |InFlight(a[i := Idle])| == |InFlight(a)| - 1
  {
    assert InFlight(a[i := Idle]) == InFlight(a) - {i};
  }

  lemma DropRaises(calls: seq<CallStatus>, k: nat)
    requires k < |calls| && !calls[k].Dropped?
    ensures |DroppedCalls(calls[k := Dropped])| == |DroppedCalls(calls)| + 1
  {
    assert DroppedCalls(calls[k := Dropped]) == DroppedCalls(calls) + {k};
  }

  lemma DropAlone(calls: seq<CallStatus>, k: nat, status: CallStatus)
    requires k < |calls| && !calls[k].Dropped? && !status.Dropped?
    ensures DroppedCalls(calls[k := status]) == DroppedCalls(calls)
  {
  }

  lemma InitSlots(c: Config, n: nat)
    ensures SlotsOk(c, Init(c, n))
  {
    var s := Init(c, n);
    forall p | 0 <= p < Cap(c) ensures SlotOk(c, s, p) {
      SmallMod(p, Cap(c));
      assert s.slots[p] == Slot(p, EMPTY_COPY);
    }
  }

  lemma SmallMod(p: nat, m: nat)
    requires p < m
    ensures p % m == p
  {
  }

  lemma InitInv(c: Config, n: nat)
    requires ConfigOk(c)
    ensures Inv(c, Init(c, n))
  {
    var s := Init(c, n);
    InitSlots(c, n);
    assert InFlight(s.producers) == {};
    assert DroppedCalls(s.calls) == {};
  }

  /** A step that only moves producer i on, with the same record and nothing shared changed. */
  lemma LocalMove(c: Config, s: State, i: nat, p: Producer)
    requires Inv(c, s) && i < |s.producers|
    requires !s.producers[i].Idle? && !s.producers[i].DropCounted? && !Owns(s.producers[i])
    requires !p.Idle? && !p.DropCounted? && !Owns(p) && p.rec == s.producers[i].rec
    requires p.TailLoaded? ==> p.pos <= s.tail
    requires p.SeqLoaded? ==> p.pos <= s.tail && (p.sq == p.pos ==> p.pos < s.freed + Cap(c))
    requires ModeOf(s.writer) == Final(true) ==> p.Entered? || p.Refused?
    ensures Inv(c, s.(producers := s.producers[i := p]))
  {
    var t := s.(producers := s.producers[i := p]);
    InFlightKept(s.producers, i, p);
    forall q | t.freed <= q < t.freed + Cap(c) ensures SlotOk(c, t, q) {
      assert SlotOk(c, s, q);
    }
    forall j | 0 <= j < |t.producers| ensures ProducerOk(c, t, j) {
      assert ProducerOk(c, s, j);
    }
    forall q | 0 <= q < |t.claimed| ensures ClaimOk(t, q) {
      assert ClaimOk(s, q);
      assert ProducerOk(c, s, i);
    }
    forall k | 0 <= k < |t.calls| ensures CallOk(t, k) {
      assert CallOk(s, k);
      assert ProducerOk(c, s, i);
    }
  }

  lemma AddLaps(p: int, k: int, m: int)
    requires m > 0
    ensures (p + m * k) % m == p % m
  {
    assert p == m * (p / m) + p % m;
    assert p + m * k == m * (p / m + k) + p % m;
    DivisionUnique(p + m * k, m, p / m + k, p % m);
  }

  /** The position of the current lap that uses pos's slot. */
  lemma LapPosition(freed: nat, pos: nat, m: int) returns (w: nat)
    requires m > 0
    ensures freed <= w < freed + m && w % m == pos % m
  {
    var d: int := pos - freed;
    w := freed + d % m;
    assert d == m * (d / m) + d % m;
    assert pos == w + m * (d / m);
    AddLaps(w, d / m, m);
  }

  /**
   * What loading a slot's sequence tells a producer: the position itself means the slot is free for it, and
   * less means that at this very step a full capacity of positions is claimed and not yet freed.
   */
  lemma LoadedSequence(c: Config, s: State, pos: nat)
    requires Inv(c, s) && pos <= s.tail
    ensures var sq := s.slots[Index(c, pos)].sq;
            && (sq == pos ==> s.freed <= pos < s.freed + Cap(c))
            && (sq < pos ==> s.tail - s.freed == Cap(c))
  {
    var w := LapPosition(s.freed, pos, Cap(c));
    var sq := s.slots[Index(c, pos)].sq;
    assert SlotOk(c, s, w);
    assert Cap(c) == 2 * Pow2(c.bits - 1);
    if sq == pos {
      WindowInjective(w, pos, Cap(c));
    } else if sq < pos {
      DifferenceMultiple(w, pos, Cap(c));
    }
  }

  lemma SlotsApart(c: Config, s: State, p: nat, q: nat)
    requires Inv(c, s) && s.freed <= p < s.freed + Cap(c) && s.freed <= q < s.freed + Cap(c)
    ensures Index(c, p) == Index(c, q) ==> p == q
  {
    if Index(c, p) == Index(c, q) {
      WindowInjective(p, q, Cap(c));
    }
  }

  lemma ClaimSlots(c: Config, s: State, i: nat)
    requires Inv(c, s) && i < |s.producers| && s.producers[i].SeqLoaded?
    requires s.producers[i].sq == s.producers[i].pos == s.tail
    ensures SlotsOk(c, ProducerStep(c, s, i))
  {
    var t := ProducerStep(c, s, i);
    assert ProducerOk(c, s, i);
    forall q | t.freed <= q < t.freed + Cap(c) ensures SlotOk(c, t, q) {
      assert SlotOk(c, s, q);
    }
  }

  lemma ClaimProducers(c: Config, s: State, i: nat)
    requires Inv(c, s) && i < |s.producers| && s.producers[i].SeqLoaded?
    requires s.producers[i].sq == s.producers[i].pos == s.tail
    ensures ProducersOk(c, ProducerStep(c, s, i))
  {
    var t := ProducerStep(c, s, i);
    assert ProducerOk(c, s, i);
    assert SlotOk(c, s, s.tail);
    forall j | 0 <= j < |t.producers| ensures ProducerOk(c, t, j) {
      assert ProducerOk(c, s, j);
    }
  }

  lemma ClaimTables(c: Config, s: State, i: nat)
    requires Inv(c, s) && i < |s.producers| && s.producers[i].SeqLoaded?
    requires s.producers[i].sq == s.producers[i].pos == s.tail
    ensures ClaimsOk(ProducerStep(c, s, i)) && CallsOk(ProducerStep(c, s, i))
  {
    var t := ProducerStep(c, s, i);
    assert ProducerOk(c, s, i);
    forall q | 0 <= q < |t.claimed| ensures ClaimOk(t, q) {
      if q < |s.claimed| {
        assert ClaimOk(s, q);
      }
    }
    forall k | 0 <= k < |t.calls| ensures CallOk(t, k) {
      assert CallOk(s, k);
    }
  }

  lemma ClaimKeeps(c: Config, s: State, i: nat)
    requires Inv(c, s) && i < |s.producers| && s.producers[i].SeqLoaded?
    requires s.producers[i].sq == s.producers[i].pos == s.tail
    ensures Inv(c, ProducerStep(c, s, i))
  {
    var t := ProducerStep(c, s, i);
    ClaimSlots(c, s, i);
    ClaimProducers(c, s, i);
    ClaimTables(c, s, i);
    assert ProducerOk(c, s, i);
    assert SlotOk(c, s, s.tail);
    InFlightKept(s.producers, i, t.producers[i]);
    assert t.claimed[..Rendered(t)] == s.claimed[..Rendered(s)];
  }

  lemma FillSlots(c: Config, s: State, i: nat)
    requires Inv(c, s) && i < |s.producers| && s.producers[i].Claimed?
    ensures SlotsOk(c, ProducerStep(c, s, i))
  {
    var t := ProducerStep(c, s, i);
    assert ProducerOk(c, s, i);
    var pos := s.producers[i].pos;
    forall q | t.freed <= q < t.freed + Cap(c) ensures SlotOk(c, t, q) {
      assert SlotOk(c, s, q);
      SlotsApart(c, s, pos, q);
    }
  }

  lemma FillProducers(c: Config, s: State, i: nat)
    requires Inv(c, s) && i < |s.producers| && s.producers[i].Claimed?
    ensures ProducersOk(c, ProducerStep(c, s, i))
  {
    var t := ProducerStep(c, s, i);
    assert ProducerOk(c, s, i);
    var pos := s.producers[i].pos;
    forall j | 0 <= j < |t.producers| ensures ProducerOk(c, t, j) {
      assert ProducerOk(c, s, j);
      if s.producers[j].Filled? {
        SlotsApart(c, s, pos, s.producers[j].pos);
      }
    }
  }

  lemma FillTables(c: Config, s: State, i: nat)
    requires Inv(c, s) && i < |s.producers| && s.producers[i].Claimed?
    ensures ClaimsOk(ProducerStep(c, s, i)) && CallsOk(ProducerStep(c, s, i))
  {
    var t := ProducerStep(c, s, i);
    assert ProducerOk(c, s, i);
    forall q | 0 <= q < |t.claimed| ensures ClaimOk(t, q) {
      assert ClaimOk(s, q);
    }
    forall k | 0 <= k < |t.calls| ensures CallOk(t, k) {
      assert CallOk(s, k);
    }
  }

  lemma FillKeeps(c: Config, s: State, i: nat)
    requires Inv(c, s) && i < |s.producers| && s.producers[i].Claimed?
    ensures Inv(c, ProducerStep(c, s, i))
  {
    var t := ProducerStep(c, s, i);
    FillSlots(c, s, i);
    FillProducers(c, s, i);
    FillTables(c, s, i);
    InFlightKept(s.producers, i, t.producers[i]);
  }

  lemma PublishSlots(c: Config, s: State, i: nat)
    requires Inv(c, s) && i < |s.producers| && s.producers[i].Filled?
    ensures SlotsOk(c, ProducerStep(c, s, i))
  {
    var t := ProducerStep(c, s, i);
    assert ProducerOk(c, s, i);
    var pos := s.producers[i].pos;
    forall q | t.freed <= q < t.freed + Cap(c) ensures SlotOk(c, t, q) {
      assert SlotOk(c, s, q);
      SlotsApart(c, s, pos, q);
    }
  }

  lemma PublishProducers(c: Config, s: State, i: nat)
    requires Inv(c, s) && i < |s.producers| && s.producers[i].Filled?
    ensures ProducersOk(c, ProducerStep(c, s, i))
  {
    var t := ProducerStep(c, s, i);
    assert ProducerOk(c, s, i);
    var pos := s.producers[i].pos;
    forall j | 0 <= j < |t.producers| ensures ProducerOk(c, t, j) {
      assert ProducerOk(c, s, j);
      if j != i && (s.producers[j].Claimed? || s.producers[j].Filled?) {
        SlotsApart(c, s, pos, s.producers[j].pos);
      }
    }
  }

  lemma PublishTables(c: Config, s: State, i: nat)
    requires Inv(c, s) && i < |s.producers| && s.producers[i].Filled?
    ensures ClaimsOk(ProducerStep(c, s, i)) && CallsOk(ProducerStep(c, s, i))
  {
    var t := ProducerStep(c, s, i);
    assert ProducerOk(c, s, i);
    forall q | 0 <= q < |t.claimed| ensures ClaimOk(t, q) {
      assert ClaimOk(s, q);
    }
    forall k | 0 <= k < |t.calls| ensures CallOk(t, k) {
      assert CallOk(s, k);
    }
  }

  lemma PublishWriter(c: Config, s: State, i: nat)
    requires Inv(c, s) && i < |s.producers| && s.producers[i].Filled?
    ensures WriterOk(c, ProducerStep(c, s, i))
  {
    assert ProducerOk(c, s, i);
    var pos := s.producers[i].pos;
    if s.writer.ReadyLoaded? && s.head < s.tail {
      SlotsApart(c, s, pos, s.head);
    }
    if s.writer.Consuming? || s.writer.Freeing? {
      SlotsApart(c, s, pos, s.freed);
    }
  }

  lemma PublishKeeps(c: Config, s: State, i: nat)
    requires Inv(c, s) && i < |s.producers| && s.producers[i].Filled?
    ensures Inv(c, ProducerStep(c, s, i))
  {
    PublishSlots(c, s, i);
    PublishProducers(c, s, i);
    PublishTables(c, s, i);
    PublishWriter(c, s, i);
    InFlightKept(s.producers, i, ProducerStep(c, s, i).producers[i]);
  }

  lemma ReturnFrame(c: Config, s: State, i: nat)
    requires Inv(c, s) && i < |s.producers| && s.producers[i].Published?
    ensures SlotsOk(c, ProducerStep(c, s, i)) && ProducersOk(c, ProducerStep(c, s, i))
  {
    var t := ProducerStep(c, s, i);
    assert ProducerOk(c, s, i);
    forall q | t.freed <= q < t.freed + Cap(c) ensures SlotOk(c, t, q) {
      assert SlotOk(c, s, q);
    }
    forall j | 0 <= j < |t.producers| ensures ProducerOk(c, t, j) {
      assert ProducerOk(c, s, j);
    }
  }

  lemma ReturnTables(c: Config, s: State, i: nat)
    requires Inv(c, s) && i < |s.producers| && s.producers[i].Published?
    ensures ClaimsOk(ProducerStep(c, s, i)) && CallsOk(ProducerStep(c, s, i))
  {
    var t := ProducerStep(c, s, i);
    assert ProducerOk(c, s, i);
    forall q | 0 <= q < |t.claimed| ensures ClaimOk(t, q) {
      assert ClaimOk(s, q);
    }
    forall k | 0 <= k < |t.calls| ensures CallOk(t, k) {
      assert CallOk(s, k);
    }
  }

  lemma ReturnKeeps(c: Config, s: State, i: nat)
    requires Inv(c, s) && i < |s.producers| && s.producers[i].Published?
    ensures Inv(c, ProducerStep(c, s, i))
  {
    assert ProducerOk(c, s, i);
    ReturnFrame(c, s, i);
    ReturnTables(c, s, i);
    InFlightLeaves(s.producers, i);
    DropAlone(s.calls, s.producers[i].rec.call, Accepted(s.producers[i].pos));
  }

  lemma DropSlots(c: Config, s: State, i: nat)
    requires Inv(c, s) && i < |s.producers| && s.producers[i].Refused?
    ensures SlotsOk(c, ProducerStep(c, s, i))
  {
    var t := ProducerStep(c, s, i);
    assert ProducerOk(c, s, i);
    forall q | t.freed <= q < t.freed + Cap(c) ensures SlotOk(c, t, q) {
      assert SlotOk(c, s, q);
    }
  }

  lemma DropProducers(c: Config, s: State, i: nat)
    requires Inv(c, s) && i < |s.producers| && s.producers[i].Refused?
    ensures ProducersOk(c, ProducerStep(c, s, i))
  {
    var t := ProducerStep(c, s, i);
    assert ProducerOk(c, s, i);
    forall j | 0 <= j < |t.producers| ensures ProducerOk(c, t, j) {
      assert ProducerOk(c, s, j);
    }
  }

  lemma DropTables(c: Config, s: State, i: nat)
    requires Inv(c, s) && i < |s.producers| && s.producers[i].Refused?
    ensures ClaimsOk(ProducerStep(c, s, i)) && CallsOk(ProducerStep(c, s, i))
  {
    var t := ProducerStep(c, s, i);
    assert ProducerOk(c, s, i);
    forall q | 0 <= q < |t.claimed| ensures ClaimOk(t, q) {
      assert ClaimOk(s, q);
    }
    forall k | 0 <= k < |t.calls| ensures CallOk(t, k) {
      assert CallOk(s, k);
    }
  }

  lemma DropKeeps(c: Config, s: State, i: nat)
    requires Inv(c, s) && i < |s.producers| && s.producers[i].Refused?
    ensures Inv(c, ProducerStep(c, s, i))
  {
    var t := ProducerStep(c, s, i);
    DropSlots(c, s, i);
    DropProducers(c, s, i);
    DropTables(c, s, i);
    assert ProducerOk(c, s, i);
    InFlightKept(s.producers, i, t.producers[i]);
    DropRaises(s.calls, s.producers[i].rec.call);
  }

  lemma LeaveFrame(c: Config, s: State, i: nat)
    requires Inv(c, s) && i < |s.producers| && s.producers[i].DropCounted?
    ensures SlotsOk(c, ProducerStep(c, s, i)) && ProducersOk(c, ProducerStep(c, s, i))
  {
    var t := ProducerStep(c, s, i);
    assert ProducerOk(c, s, i);
    forall q | t.freed <= q < t.freed + Cap(c) ensures SlotOk(c, t, q) {
      assert SlotOk(c, s, q);
    }
    forall j | 0 <= j < |t.producers| ensures ProducerOk(c, t, j) {
      assert ProducerOk(c, s, j);
    }
  }

  lemma LeaveTables(c: Config, s: State, i: nat)
    requires Inv(c, s) && i < |s.producers| && s.producers[i].DropCounted?
    ensures ClaimsOk(ProducerStep(c, s, i)) && CallsOk(ProducerStep(c, s, i))
  {
    var t := ProducerStep(c, s, i);
    assert ProducerOk(c, s, i);
    forall q | 0 <= q < |t.claimed| ensures ClaimOk(t, q) {
      assert ClaimOk(s, q);
    }
    forall k | 0 <= k < |t.calls| ensures CallOk(t, k) {
      assert CallOk(s, k);
    }
  }

  lemma LeaveKeeps(c: Config, s: State, i: nat)
    requires Inv(c, s) && i < |s.producers| && s.producers[i].DropCounted?
    ensures Inv(c, ProducerStep(c, s, i))
  {
    assert ProducerOk(c, s, i);
    LeaveFrame(c, s, i);
    LeaveTables(c, s, i);
    InFlightLeaves(s.producers, i);
  }

  lemma CallFrame(c: Config, s: State, i: nat, entry: LogEntry)
    requires Inv(c, s) && i < |s.producers| && s.producers[i].Idle?
    ensures SlotsOk(c, Apply(c, s, Call(i, entry))) && ProducersOk(c, Apply(c, s, Call(i, entry)))
  {
    var t := Apply(c, s, Call(i, entry));
    forall q | t.freed <= q < t.freed + Cap(c) ensures SlotOk(c, t, q) {
      assert SlotOk(c, s, q);
    }
    forall j | 0 <= j < |t.producers| ensures ProducerOk(c, t, j) {
      assert ProducerOk(c, s, j);
    }
  }

  lemma CallTables(c: Config, s: State, i: nat, entry: LogEntry)
    requires Inv(c, s) && i < |s.producers| && s.producers[i].Idle?
    ensures ClaimsOk(Apply(c, s, Call(i, entry))) && CallsOk(Apply(c, s, Call(i, entry)))
  {
    var t := Apply(c, s, Call(i, entry));
    forall q | 0 <= q < |t.claimed| ensures ClaimOk(t, q) {
      assert ClaimOk(s, q);
    }
    forall k | 0 <= k < |t.calls| ensures CallOk(t, k) {
      if k < |s.calls| {
        assert CallOk(s, k);
      }
    }
  }

  lemma CallKeeps(c: Config, s: State, i: nat, entry: LogEntry)
    requires Inv(c, s) && i < |s.producers| && s.producers[i].Idle?
    ensures Inv(c, Apply(c, s, Call(i, entry)))
  {
    var t := Apply(c, s, Call(i, entry));
    InFlightEnters(s.producers, i, t.producers[i]);
    assert DroppedCalls(t.calls) == DroppedCalls(s.calls);
    CallFrame(c, s, i, entry);
    CallTables(c, s, i, entry);
  }

  /** The steps on which a producer only looks at shared state, or retries. */
  lemma LookKeeps(c: Config, s: State, i: nat)
    requires Inv(c, s) && i < |s.producers|
    requires s.producers[i].Entered? || s.producers[i].Trying? || s.producers[i].Full?
    ensures Inv(c, ProducerStep(c, s, i))
  {
    assert ProducerOk(c, s, i);
    LocalMove(c, s, i, ProducerStep(c, s, i).producers[i]);
  }

  lemma LoadKeeps(c: Config, s: State, i: nat)
    requires Inv(c, s) && i < |s.producers| && s.producers[i].TailLoaded?
    ensures Inv(c, ProducerStep(c, s, i))
  {
    assert ProducerOk(c, s, i);
    LoadedSequence(c, s, s.producers[i].pos);
    LocalMove(c, s, i, ProducerStep(c, s, i).producers[i]);
  }

  lemma RetryKeeps(c: Config, s: State, i: nat)
    requires Inv(c, s) && i < |s.producers| && s.producers[i].SeqLoaded?
    requires !(s.producers[i].sq == s.producers[i].pos == s.tail)
    ensures Inv(c, ProducerStep(c, s, i))
  {
    assert ProducerOk(c, s, i);
    var p := s.producers[i];
    LocalMove(c, s, i, if p.sq < p.pos then Full(p.rec, p.again) else Trying(p.rec, p.again));
  }

  lemma ProducerKeeps(c: Config, s: State, i: nat)
    requires Inv(c, s) && i < |s.producers|
    ensures Inv(c, ProducerStep(c, s, i))
  {
    match s.producers[i]
    case Idle =>
    case Entered(_) => LookKeeps(c, s, i);
    case Trying(_, _) => LookKeeps(c, s, i);
    case TailLoaded(_, _, _) => LoadKeeps(c, s, i);
    case SeqLoaded(_, _, pos, sq) =>
      if sq == pos && s.tail == pos {
        ClaimKeeps(c, s, i);
      } else {
        RetryKeeps(c, s, i);
      }
    case Claimed(_, _) => FillKeeps(c, s, i);
    case Filled(_, _) => PublishKeeps(c, s, i);
    case Published(_, _) => ReturnKeeps(c, s, i);
    case Full(_, _) => LookKeeps(c, s, i);
    case Refused(_) => DropKeeps(c, s, i);
    case DropCounted(_) => LeaveKeeps(c, s, i);
  }

  /** A writer step that leaves slots, cursors, producers and calls alone. */
  lemma WriterMove(c: Config, s: State, t: State)
    requires Inv(c, s)
    requires t.slots == s.slots && t.tail == s.tail && t.producers == s.producers && t.claimed == s.claimed
    requires t.freed == s.freed && t.calls == s.calls
    ensures SlotsOk(c, t) && ProducersOk(c, t) && ClaimsOk(t) && CallsOk(t)
  {
    forall q | t.freed <= q < t.freed + Cap(c) ensures SlotOk(c, t, q) {
      assert SlotOk(c, s, q);
    }
    forall j | 0 <= j < |t.producers| ensures ProducerOk(c, t, j) {
      assert ProducerOk(c, s, j);
    }
    forall q | 0 <= q < |t.claimed| ensures ClaimOk(t, q) {
      assert ClaimOk(s, q);
    }
    forall k | 0 <= k < |t.calls| ensures CallOk(t, k) {
      assert CallOk(s, k);
    }
  }

  lemma ConsumeKeeps(c: Config, s: State)
    requires Inv(c, s) && s.writer.Consuming?
    ensures Inv(c, WriterStep(c, s))
  {
    var t := WriterStep(c, s);
    WriterMove(c, s, t);
    assert SlotOk(c, s, s.freed);
    var done := s.claimed[..s.freed + 1];
    assert done[..|done| - 1] == s.claimed[..s.freed];
    assert t.out + t.buf == s.out + s.buf + Line(c, s.slots[Index(c, s.freed)].data);
  }

  lemma FreeKeeps(c: Config, s: State)
    requires Inv(c, s) && s.writer.Freeing?
    ensures Inv(c, WriterStep(c, s))
  {
    var t := WriterStep(c, s);
    var pos := s.freed;
    forall q | t.freed <= q < t.freed + Cap(c) ensures SlotOk(c, t, q) {
      if q == pos + Cap(c) {
        NextLap(pos, Cap(c));
      } else {
        assert SlotOk(c, s, q);
        SlotsApart(c, s, pos, q);
      }
    }
    forall j | 0 <= j < |t.producers| ensures ProducerOk(c, t, j) {
      assert ProducerOk(c, s, j);
      if s.producers[j].Claimed? || s.producers[j].Filled? {
        SlotsApart(c, s, pos, s.producers[j].pos);
      }
    }
    forall q | 0 <= q < |t.claimed| ensures ClaimOk(t, q) {
      assert ClaimOk(s, q);
    }
    forall k | 0 <= k < |t.calls| ensures CallOk(t, k) {
      assert CallOk(s, k);
    }
  }

  lemma LoadHeadSequence(c: Config, s: State)
    requires Inv(c, s) && s.head == s.freed
    ensures var sq := s.slots[Index(c, s.head)].sq;
            && (sq == s.head || sq == s.head + 1)
            && (sq == s.head + 1 ==> s.head < s.tail)
            && (sq == s.head ==> s.head == s.tail || Held(s, s.head))
            && (sq == s.head && Quiet(s) ==> s.head == s.tail)
  {
    assert SlotOk(c, s, s.head);
  }

  lemma ReadyKeeps(c: Config, s: State)
    requires Inv(c, s) && s.writer.HeadLoaded?
    ensures Inv(c, WriterStep(c, s))
  {
    WriterMove(c, s, WriterStep(c, s));
    LoadHeadSequence(c, s);
  }

  lemma CheckKeeps(c: Config, s: State)
    requires Inv(c, s) && s.writer.Checking?
    ensures Inv(c, WriterStep(c, s))
  {
    WriterMove(c, s, WriterStep(c, s));
    QuietWhenIdle(s);
  }

  /** Handing the buffer over moves bytes from buf to out, and leaves what is written and buffered as it was. */
  lemma FlushedCounts(c: Config, s: State, w: Writer)
    requires CountsOk(c, s) && !s.writer.Freeing? && !w.Freeing?
    ensures CountsOk(c, s.(writer := w)) && CountsOk(c, Flush(s).(writer := w))
  {
    assert s.out + s.buf + [] == s.out + s.buf;
  }

  lemma BatchWriterOk(c: Config, s: State)
    requires |s.slots| == Cap(c) && WriterOk(c, s) && s.writer.BatchDone?
    ensures WriterOk(c, WriterStep(c, s))
  {
  }

  lemma BatchKeeps(c: Config, s: State)
    requires Inv(c, s) && s.writer.BatchDone?
    ensures Inv(c, WriterStep(c, s))
  {
    var t := WriterStep(c, s);
    WriterMove(c, s, t);
    FlushedCounts(c, s, t.writer);
    BatchWriterOk(c, s);
  }

  lemma FlushWriterOk(c: Config, s: State)
    requires |s.slots| == Cap(c) && WriterOk(c, s) && s.writer.LastFlush?
    ensures WriterOk(c, WriterStep(c, s))
  {
  }

  lemma FlushKeeps(c: Config, s: State)
    requires Inv(c, s) && s.writer.LastFlush?
    ensures Inv(c, WriterStep(c, s))
  {
    var t := WriterStep(c, s);
    WriterMove(c, s, t);
    FlushedCounts(c, s, t.writer);
    FlushWriterOk(c, s);
  }

  lemma LoopKeeps(c: Config, s: State)
    requires Inv(c, s) && s.writer.Draining?
    ensures Inv(c, WriterStep(c, s))
  {
    var t := WriterStep(c, s);
    WriterMove(c, s, t);
    FlushedCounts(c, s, t.writer);
    assert WriterOk(c, t);
  }

  lemma WaitKeeps(c: Config, s: State)
    requires Inv(c, s) && s.writer.Waiting?
    ensures Inv(c, WriterStep(c, s))
  {
    WriterMove(c, s, WriterStep(c, s));
  }

  lemma TakeKeeps(c: Config, s: State)
    requires Inv(c, s) && s.writer.ReadyLoaded?
    ensures Inv(c, WriterStep(c, s))
  {
    WriterMove(c, s, WriterStep(c, s));
  }

  lemma WriterKeeps(c: Config, s: State)
    requires Inv(c, s)
    ensures Inv(c, WriterStep(c, s))
  {
    match s.writer
    case Consuming(_, _, _) => ConsumeKeeps(c, s);
    case Freeing(_, _, _) => FreeKeeps(c, s);
    case HeadLoaded(_, _, _) => ReadyKeeps(c, s);
    case Checking => CheckKeeps(c, s);
    case BatchDone(_, _) => BatchKeeps(c, s);
    case LastFlush(_) => FlushKeeps(c, s);
    case Draining(_, _) => LoopKeeps(c, s);
    case ReadyLoaded(_, _, _, _) => TakeKeeps(c, s);
    case Waiting => WaitKeeps(c, s);
    case Done =>
  }

  lemma QuietWhenIdle(s: State)
    requires s.inflight == |InFlight(s.producers)| && s.closing
    ensures s.inflight == 0 ==> Quiet(s)
  {
    if s.inflight == 0 {
      forall i | 0 <= i < |s.producers| ensures s.producers[i].Idle? {
        assert i !in InFlight(s.producers);
      }
    }
  }

  /** Every step keeps the invariant. */
  lemma StepKeeps(c: Config, s: State, step: Step)
    requires Inv(c, s)
    ensures Inv(c, Apply(c, s, step))
  {
    match step
    case Call(i, entry) =>
      if i < |s.producers| && s.producers[i].Idle? {
        CallKeeps(c, s, i, entry);
      }
    case Produce(i) =>
      if i < |s.producers| {
        ProducerKeeps(c, s, i);
      }
    case Write => WriterKeeps(c, s);
    case _ => WriterMove(c, s, Apply(c, s, step));
  }

  lemma {:induction false} ExecKeeps(c: Config, s: State, steps: seq<Step>)
    requires Inv(c, s)
    ensures Inv(c, Exec(c, s, steps))
    decreases |steps|
  {
    if steps != [] {
      StepKeeps(c, s, steps[0]);
      ExecKeeps(c, Apply(c, s, steps[0]), steps[1..]);
    }
  }

  /** The invariant holds after every schedule of any number of producers, the writer and the closer. */
  lemma Reachable(c: Config, n: nat, steps: seq<Step>)
    requires ConfigOk(c)
    ensures Inv(c, Exec(c, Init(c, n), steps))
  {
    InitInv(c, n);
    ExecKeeps(c, Init(c, n), steps);
  }
}
