/** What the ring sink promises, over every schedule. */
module RingTheorems {
  import opened Bytes
  import opened Types
  import opened TimeHeader
  import opened Json
  import opened Payload
  import opened RingMath
  import opened Ring
  import opened RingProof

  ghost predicate IsReachable(c: Config, s: State) {
    ConfigOk(c) && exists n: nat, steps: seq<Step> :: s == Exec(c, Init(c, n), steps)
  }

  lemma ReachableInv(c: Config, s: State)
    requires IsReachable(c, s)
    ensures Inv(c, s)
  {
    var n: nat, steps: seq<Step> :| s == Exec(c, Init(c, n), steps);
    Reachable(c, n, steps);
  }

  // ---- Slots have one owner ----

  lemma HoldersApart(c: Config, s: State, i: nat, j: nat)
    requires Inv(c, s) && i < |s.producers| && j < |s.producers|
    requires s.producers[i].Claimed? || s.producers[i].Filled?
    requires s.producers[j].Claimed? || s.producers[j].Filled?
    requires Index(c, s.producers[j].pos) == Index(c, s.producers[i].pos)
    ensures i == j
  {
    assert ProducerOk(c, s, i) && ProducerOk(c, s, j);
    SlotsApart(c, s, s.producers[i].pos, s.producers[j].pos);
  }

  lemma ReaderApart(c: Config, s: State, i: nat)
    requires Inv(c, s) && i < |s.producers|
    requires s.producers[i].Claimed? || s.producers[i].Filled?
    requires s.writer.Consuming? || s.writer.Freeing?
    ensures Index(c, s.writer.pos) != Index(c, s.producers[i].pos)
  {
    assert ProducerOk(c, s, i);
    SlotsApart(c, s, s.writer.pos, s.producers[i].pos);
  }

  /** A slot is filled by one producer at a time, and never while the writer reads it. */
  lemma ExclusiveSlots(c: Config, s: State, i: nat)
    requires IsReachable(c, s) && i < |s.producers|
    requires s.producers[i].Claimed? || s.producers[i].Filled?
    ensures forall j | 0 <= j < |s.producers| && (s.producers[j].Claimed? || s.producers[j].Filled?)
              :: Index(c, s.producers[j].pos) == Index(c, s.producers[i].pos) ==> i == j
    ensures s.writer.Consuming? || s.writer.Freeing? ==> Index(c, s.writer.pos) != Index(c, s.producers[i].pos)
  {
    ReachableInv(c, s);
    forall j | 0 <= j < |s.producers| && (s.producers[j].Claimed? || s.producers[j].Filled?)
               && Index(c, s.producers[j].pos) == Index(c, s.producers[i].pos)
      ensures i == j
    {
      HoldersApart(c, s, i, j);
    }
    if s.writer.Consuming? || s.writer.Freeing? {
      ReaderApart(c, s, i);
    }
  }

  /** Each claimed position carries its own call, so no record is queued twice. */
  lemma ClaimsDistinct(c: Config, s: State, p: nat, q: nat)
    requires IsReachable(c, s) && p < |s.claimed| && q < |s.claimed|
    requires s.claimed[p].call == s.claimed[q].call
    ensures p == q
  {
    ReachableInv(c, s);
    assert ClaimOk(s, p) && ClaimOk(s, q);
  }

  /** The load that makes enqueue return false sees a full ring: a whole capacity claimed and not freed. */
  lemma FalseOnlyWhenFull(c: Config, s: State, i: nat)
    requires IsReachable(c, s) && i < |s.producers| && s.producers[i].TailLoaded?
    ensures var t := Apply(c, s, Produce(i));
            && t.producers[i].SeqLoaded?
            && (t.producers[i].sq < t.producers[i].pos ==> s.tail - s.freed == Cap(c))
  {
    ReachableInv(c, s);
    assert ProducerOk(c, s, i);
    LoadedSequence(c, s, s.producers[i].pos);
  }

  // ---- Refinement of a bounded queue ----

  /** The bounded queue the ring stands for: records waiting, and how many places are taken. */
  datatype Fifo = Fifo(queue: seq<Rec>, taken: nat)

  datatype FifoStep = Stutter | Enqueue(rec: Rec) | Dequeue | Release

  predicate FifoNext(capacity: nat, a: Fifo, b: Fifo, step: FifoStep) {
    match step
    case Stutter => b == a
    case Enqueue(rec) => a.taken < capacity && b == Fifo(a.queue + [rec], a.taken + 1)
    case Dequeue => |a.queue| > 0 && b == Fifo(a.queue[1..], a.taken)
    case Release => a.taken > |a.queue| && b == Fifo(a.queue, a.taken - 1)
  }

  function View(c: Config, s: State): Fifo
    requires CursorsOk(c, s)
  {
    Fifo(s.claimed[s.head..s.tail], s.tail - s.freed)
  }

  function ViewStep(s: State, t: State): FifoStep {
    if |t.claimed| > |s.claimed| then Enqueue(t.claimed[|t.claimed| - 1])
    else if t.head > s.head then Dequeue
    else if t.freed > s.freed then Release
    else Stutter
  }

  predicate Moved(s: State, t: State, claims: nat, heads: nat, frees: nat) {
    && t.tail == s.tail + claims && t.head == s.head + heads && t.freed == s.freed + frees
    && |t.claimed| == |s.claimed| + claims && t.claimed[..|s.claimed|] == s.claimed
  }

  lemma SliceGrows<T>(a: seq<T>, b: seq<T>, h: nat)
    requires |b| == |a| + 1 && b[..|a|] == a && h <= |a|
    ensures b[h..|b|] == a[h..|a|] + [b[|a|]]
  {
    assert b == a + [b[|a|]];
  }

  lemma CursorMove(c: Config, s: State, t: State)
    requires CursorsOk(c, s) && CursorsOk(c, t)
    requires Moved(s, t, 0, 0, 0) || Moved(s, t, 1, 0, 0) || Moved(s, t, 0, 1, 0) || Moved(s, t, 0, 0, 1)
    ensures FifoNext(Cap(c), View(c, s), View(c, t), ViewStep(s, t))
  {
    if |t.claimed| > |s.claimed| {
      SliceGrows(s.claimed, t.claimed, s.head);
    } else {
      assert t.claimed == s.claimed;
      if t.head > s.head {
        assert t.claimed[t.head..t.tail] == s.claimed[s.head..s.tail][1..];
      }
    }
  }

  lemma ProducerMoves(c: Config, s: State, i: nat)
    requires |s.slots| == Cap(c) && i < |s.producers| && s.tail == |s.claimed|
    ensures var t := ProducerStep(c, s, i); Moved(s, t, 0, 0, 0) || Moved(s, t, 1, 0, 0)
  {
  }

  lemma WriterMoves(c: Config, s: State)
    requires |s.slots| == Cap(c)
    ensures var t := WriterStep(c, s); Moved(s, t, 0, 0, 0) || Moved(s, t, 0, 1, 0) || Moved(s, t, 0, 0, 1)
  {
  }

  lemma StepMoves(c: Config, s: State, step: Step)
    requires |s.slots| == Cap(c) && s.tail == |s.claimed|
    ensures var t := Apply(c, s, step);
            Moved(s, t, 0, 0, 0) || Moved(s, t, 1, 0, 0) || Moved(s, t, 0, 1, 0) || Moved(s, t, 0, 0, 1)
  {
    match step
    case Produce(i) =>
      if i < |s.producers| {
        ProducerMoves(c, s, i);
      }
    case Write => WriterMoves(c, s);
    case _ =>
  }

  /**
   * Every step of the ring is a step of a bounded first-in first-out queue, or changes nothing there: a claim
   * enqueues, the writer's compare-and-swap dequeues the oldest record, freeing the slot gives its place back.
   */
  lemma RefinesFifo(c: Config, s: State, step: Step)
    requires Inv(c, s)
    ensures Inv(c, Apply(c, s, step))
    ensures FifoNext(Cap(c), View(c, s), View(c, Apply(c, s, step)), ViewStep(s, Apply(c, s, step)))
  {
    StepKeeps(c, s, step);
    StepMoves(c, s, step);
    CursorMove(c, s, Apply(c, s, step));
  }

  // ---- Output ----

  /** What has been handed to the destination, with what is buffered, is the claimed records in claim order. */
  lemma OutputInClaimOrder(c: Config, s: State)
    requires IsReachable(c, s)
    ensures exists n :: 0 <= n <= |s.claimed| && s.out + s.buf == Render(c, s.claimed[..n])
  {
    ReachableInv(c, s);
    assert 0 <= Rendered(s) <= |s.claimed|;
  }

  /** Format reads only what a slot carries, so a copy of an entry with its TimestampUnix set formats alike. */
  ghost predicate FormatsCopies(format: LogEntry -> bytes) {
    forall e: LogEntry {:trigger format(e)} ::
      e.timestampUnix != 0 ==> format(Project(CopyOf(e), ZERO_ENTRY)) == format(e)
  }

  function Terminated(t: bytes): bytes {
    if t == [] || t[|t| - 1] != 0x0a then t + [0x0a] else t
  }

  /**
   * The text a record promises: what its entry formats to, when the entry carries TimestampUnix; without it the slot
   * cannot carry the entry's time, and the text is that of the copy.
   */
  function PromisedText(format: LogEntry -> bytes, e: LogEntry): bytes {
    Terminated(format(if e.timestampUnix != 0 then e else Project(CopyOf(e), ZERO_ENTRY)))
  }

  /** The newline-terminated lines of records, in order. */
  function Lines(format: LogEntry -> bytes, recs: seq<Rec>): bytes {
    if recs == [] then [] else Lines(format, recs[..|recs| - 1]) + PromisedText(format, recs[|recs| - 1].entry)
  }

  lemma PromiseKept(c: Config, e: LogEntry)
    requires FormatsCopies(c.format)
    ensures Line(c, CopyOf(e)) == PromisedText(c.format, e)
  {
    var copied := c.format(Project(CopyOf(e), ZERO_ENTRY));
    assert e.timestampUnix != 0 ==> copied == c.format(e);
    assert Line(c, CopyOf(e)) == Terminated(copied);
  }

  lemma {:induction false} RenderIsLines(c: Config, recs: seq<Rec>)
    requires FormatsCopies(c.format)
    ensures Render(c, recs) == Lines(c.format, recs)
  {
    if recs != [] {
      RenderIsLines(c, recs[..|recs| - 1]);
      PromiseKept(c, recs[|recs| - 1].entry);
    }
  }

  /** The JSON formatter is such a format at every precision. */
  lemma JsonFormatsCopies(stamp: Stamp, prec: Precision)
    ensures FormatsCopies((e: LogEntry) => LineText(stamp, prec, e))
  {
    var format := (e: LogEntry) => LineText(stamp, prec, e);
    forall e: LogEntry {:trigger format(e)} | e.timestampUnix != 0
      ensures format(Project(CopyOf(e), ZERO_ENTRY)) == format(e)
    {
      CopyFormatsAlike(stamp, prec, e);
    }
  }

  lemma OutputAtDone(c: Config, s: State)
    requires Inv(c, s) && s.writer.Done?
    ensures s.out == Render(c, s.claimed) && s.buf == []
  {
    assert s.claimed[..|s.claimed|] == s.claimed;
    assert s.out + s.buf == s.out;
  }

  lemma AcceptedAtDone(c: Config, s: State)
    requires Inv(c, s) && s.writer.Done?
    ensures forall k :: 0 <= k < |s.calls| && s.calls[k].Accepted? ==>
              s.calls[k].pos < |s.claimed| && s.claimed[s.calls[k].pos].call == k
    ensures forall p :: 0 <= p < |s.claimed| ==>
              s.claimed[p].call < |s.calls| && s.calls[s.claimed[p].call] == Accepted(p)
  {
    forall k | 0 <= k < |s.calls| && s.calls[k].Accepted?
      ensures s.calls[k].pos < |s.claimed| && s.claimed[s.calls[k].pos].call == k
    {
      assert CallOk(s, k);
    }
    forall p | 0 <= p < |s.claimed|
      ensures s.claimed[p].call < |s.calls| && s.calls[s.claimed[p].call] == Accepted(p)
    {
      assert ClaimOk(s, p);
    }
  }

  /**
   * No loss at close. Once the writer has signalled done, every record any producer ever claimed has been
   * written, once, in order, as the bytes it promised; and every call that returned success is one of
   * them, at the one position recorded for it.
   */
  lemma NoLossAtClose(c: Config, s: State)
    requires IsReachable(c, s) && s.writer.Done?
    requires FormatsCopies(c.format)
    ensures s.out == Lines(c.format, s.claimed) && s.buf == []
    ensures forall k :: 0 <= k < |s.calls| && s.calls[k].Accepted? ==>
              s.calls[k].pos < |s.claimed| && s.claimed[s.calls[k].pos].call == k
    ensures forall p :: 0 <= p < |s.claimed| ==>
              s.claimed[p].call < |s.calls| && s.calls[s.claimed[p].call] == Accepted(p)
  {
    ReachableInv(c, s);
    OutputAtDone(c, s);
    AcceptedAtDone(c, s);
    RenderIsLines(c, s.claimed);
  }

  /** Nothing that happens after done changes the output or accepts another record. */
  lemma DoneIsFinal(c: Config, s: State, step: Step)
    requires IsReachable(c, s) && s.writer.Done?
    ensures var t := Apply(c, s, step); t.writer.Done? && t.out == s.out && t.claimed == s.claimed
  {
    ReachableInv(c, s);
  }

  function AcceptedCalls(calls: seq<CallStatus>): set<nat> {
    set k: nat | k < |calls| && calls[k].Accepted?
  }

  function FinishedCalls(calls: seq<CallStatus>): set<nat> {
    set k: nat | k < |calls| && !calls[k].InCall?
  }

  lemma CallsCounted(calls: seq<CallStatus>)
    ensures |AcceptedCalls(calls)| + |DroppedCalls(calls)| == |FinishedCalls(calls)|
  {
    assert FinishedCalls(calls) == AcceptedCalls(calls) + DroppedCalls(calls);
    assert AcceptedCalls(calls) !! DroppedCalls(calls);
  }

  /**
   * At every moment accepted plus dropped is the number of calls decided; and whenever no call is under way, every
   * accepted call is one claimed record, and in-flight is zero.
   */
  lemma Conservation(c: Config, s: State)
    requires IsReachable(c, s)
    ensures |AcceptedCalls(s.calls)| + s.dropped == |FinishedCalls(s.calls)|
    ensures (forall i :: 0 <= i < |s.producers| ==> s.producers[i].Idle?) ==>
              |FinishedCalls(s.calls)| == |s.calls| && |AcceptedCalls(s.calls)| == |s.claimed| && s.inflight == 0
  {
    ReachableInv(c, s);
    CallsCounted(s.calls);
    if forall i :: 0 <= i < |s.producers| ==> s.producers[i].Idle? {
      AllDecided(c, s);
    }
  }

  lemma {:induction false} AllFinished(calls: seq<CallStatus>)
    requires forall k :: 0 <= k < |calls| ==> !calls[k].InCall?
    ensures |FinishedCalls(calls)| == |calls|
  {
    if calls != [] {
      var n := |calls| - 1;
      AllFinished(calls[..n]);
      assert FinishedCalls(calls) == FinishedCalls(calls[..n]) + {n};
    }
  }

  lemma AllDecided(c: Config, s: State)
    requires Inv(c, s) && forall i :: 0 <= i < |s.producers| ==> s.producers[i].Idle?
    ensures |FinishedCalls(s.calls)| == |s.calls| && |AcceptedCalls(s.calls)| == |s.claimed| && s.inflight == 0
  {
    forall k | 0 <= k < |s.calls| ensures !s.calls[k].InCall? {
      assert CallOk(s, k);
    }
    AllFinished(s.calls);
    assert InFlight(s.producers) == {};
    AcceptedAreClaims(s, |s.claimed|);
    assert AcceptedCalls(s.calls) == ClaimCalls(s, |s.claimed|) by {
      forall k | k in AcceptedCalls(s.calls) ensures k in ClaimCalls(s, |s.claimed|) {
        assert CallOk(s, k);
      }
      forall k | k in ClaimCalls(s, |s.claimed|) ensures k in AcceptedCalls(s.calls) {
        var p :| 0 <= p < |s.claimed| && s.claimed[p].call == k;
        assert ClaimOk(s, p);
      }
    }
  }

  function ClaimCalls(s: State, n: nat): set<nat>
    requires n <= |s.claimed|
  {
    set p | 0 <= p < n :: s.claimed[p].call
  }

  lemma {:induction false} AcceptedAreClaims(s: State, n: nat)
    requires n <= |s.claimed| && ClaimsOk(s)
    ensures |ClaimCalls(s, n)| == n
  {
    if n > 0 {
      AcceptedAreClaims(s, n - 1);
      var last := s.claimed[n - 1].call;
      assert ClaimCalls(s, n) == ClaimCalls(s, n - 1) + {last};
      forall p | 0 <= p < n - 1 ensures s.claimed[p].call != last {
        assert ClaimOk(s, p) && ClaimOk(s, n - 1);
      }
    } else {
      assert ClaimCalls(s, 0) == {};
    }
  }

  // ---- What a flush covers ----

  /**
   * A drain stops at the first position that is claimed but not yet published: when the writer finds nothing
   * to take, either every claimed record has been taken, or a producer still holds the very next position.
   */
  lemma DrainStopsAtUnpublished(c: Config, s: State)
    requires IsReachable(c, s) && s.writer.HeadLoaded?
    ensures var t := Apply(c, s, Write);
            && t.writer.ReadyLoaded?
            && (t.writer.sq < t.writer.pos + 1 <==> s.head == s.tail || Held(s, s.head))
  {
    ReachableInv(c, s);
    LoadHeadSequence(c, s);
    assert SlotOk(c, s, s.head);
    if Held(s, s.head) {
      var i := s.calls[s.claimed[s.head].call].producer;
      assert ProducerOk(c, s, i);
    }
  }

  /**
   * Record by record: where a drain ends, an accepted record has been taken if and only if no producer then
   * holds a position below it. RingFlush decides the same at the moment the flush is asked for.
   */
  lemma FlushCovers(c: Config, s: State, k: nat)
    requires IsReachable(c, s) && s.writer.HeadLoaded?
    requires var w := Apply(c, s, Write).writer; w.ReadyLoaded? && w.sq < w.pos + 1
    requires k < |s.calls| && s.calls[k].Accepted?
    ensures s.calls[k].pos < s.head <==> forall p: nat | Held(s, p) :: s.calls[k].pos < p
  {
    ReachableInv(c, s);
    DrainStopsAtUnpublished(c, s);
    assert CallOk(s, k) && ClaimOk(s, s.calls[k].pos);
    forall p: nat | Held(s, p) ensures s.head <= p {
      assert ProducerOk(c, s, s.calls[s.claimed[p].call].producer);
    }
  }

  lemma ReachStep(c: Config, s: State, step: Step)
    requires IsReachable(c, s) && |s.slots| == Cap(c)
    ensures IsReachable(c, Apply(c, s, step))
  {
    var n: nat, steps: seq<Step> :| s == Exec(c, Init(c, n), steps);
    ExecSnoc(c, Init(c, n), steps, step);
    assert Apply(c, s, step) == Exec(c, Init(c, n), steps + [step]);
  }

  lemma {:induction false} ExecSnoc(c: Config, s: State, steps: seq<Step>, step: Step)
    requires |s.slots| == Cap(c)
    ensures Exec(c, s, steps + [step]) == Apply(c, Exec(c, s, steps), step)
    decreases |steps|
  {
    if steps == [] {
      assert [step][1..] == [];
      assert Exec(c, Apply(c, s, step), []) == Apply(c, s, step);
    } else {
      assert (steps + [step])[1..] == steps[1..] + [step];
      ExecSnoc(c, Apply(c, s, steps[0]), steps[1..], step);
    }
  }

  /** The parked writer, with the first of two producers stalled between its claim and its publish. */
  lemma StalledProducer(c: Config, e: LogEntry) returns (s: State)
    requires c.bits == 1 && c.batchSize == 1
    ensures IsReachable(c, s) && |s.slots| == 2 && s.slots[0].sq == 0 && s.slots[1].sq == 1
    ensures s.writer == Waiting && s.head == 0 && s.buf == [] && s.out == [] && !s.closing && s.tail == 1
    ensures s.producers == [Claimed(Rec(0, e), 0), Idle] && s.calls == [InCall(0)]
  {
    s := Init(c, 2);
    assert s == Exec(c, Init(c, 2), []);
    assert Cap(c) == 2 by { assert Pow2(1) == 2 * Pow2(0); }
    s := Park(c, s);
    ReachStep(c, s, Call(0, e));
    s := Apply(c, s, Call(0, e));
    s := Claim(c, s, 0);
  }

  lemma Park(c: Config, s: State) returns (t: State)
    requires c.batchSize == 1 && IsReachable(c, s) && |s.slots| == Cap(c)
    requires s.writer == Draining(Running, 0) && s.slots[Index(c, s.head)].sq == s.head
    ensures IsReachable(c, t) && t == s.(writer := Waiting)
  {
    ReachStep(c, s, Write);
    var a := Apply(c, s, Write);
    ReachStep(c, a, Write);
    var b := Apply(c, a, Write);
    ReachStep(c, b, Write);
    var d := Apply(c, b, Write);
    ReachStep(c, d, Write);
    t := Apply(c, d, Write);
  }

  lemma Load(c: Config, s: State, i: nat) returns (t: State)
    requires IsReachable(c, s) && |s.slots| == Cap(c) && i < |s.producers| && s.producers[i].Entered? && !s.closing
    ensures IsReachable(c, t)
    ensures var sq := s.slots[Index(c, s.tail)].sq;
            t == s.(producers := s.producers[i := SeqLoaded(s.producers[i].rec, false, s.tail, sq)])
  {
    var step := Produce(i);
    ReachStep(c, s, step);
    var a := Apply(c, s, step);
    ReachStep(c, a, step);
    var b := Apply(c, a, step);
    ReachStep(c, b, step);
    t := Apply(c, b, step);
    assert t.producers == s.producers[i := t.producers[i]];
  }

  /** A producer that has entered claims the free slot at the tail in four steps. */
  lemma Claim(c: Config, s: State, i: nat) returns (t: State)
    requires IsReachable(c, s) && |s.slots| == Cap(c) && i < |s.producers| && s.producers[i].Entered? && !s.closing
    requires s.slots[Index(c, s.tail)].sq == s.tail
    ensures IsReachable(c, t)
    ensures t == s.(tail := s.tail + 1, claimed := s.claimed + [s.producers[i].rec],
                    producers := s.producers[i := Claimed(s.producers[i].rec, s.tail)])
  {
    var d := Load(c, s, i);
    ReachStep(c, d, Produce(i));
    t := Apply(c, d, Produce(i));
    assert t.producers == s.producers[i := Claimed(s.producers[i].rec, s.tail)];
  }

  /** From its claim, a producer fills and publishes in two steps. */
  lemma Publish(c: Config, s: State, i: nat) returns (t: State)
    requires IsReachable(c, s) && |s.slots| == Cap(c) && i < |s.producers| && s.producers[i].Claimed?
    ensures IsReachable(c, t) && |t.slots| == Cap(c) && t == s.(slots := t.slots, producers := t.producers)
    ensures t.producers == s.producers[i := Published(s.producers[i].rec, s.producers[i].pos)]
    ensures forall k :: 0 <= k < Cap(c) && k != Index(c, s.producers[i].pos) ==> t.slots[k] == s.slots[k]
  {
    var step := Produce(i);
    ReachStep(c, s, step);
    var a := Apply(c, s, step);
    ReachStep(c, a, step);
    t := Apply(c, a, step);
    assert t.producers == s.producers[i := t.producers[i]];
  }

  /** Having claimed, a producer fills, publishes and returns success. */
  lemma Finish(c: Config, s: State, i: nat) returns (t: State)
    requires IsReachable(c, s) && |s.slots| == Cap(c) && i < |s.producers| && s.producers[i].Claimed?
    requires s.producers[i].rec.call < |s.calls|
    ensures IsReachable(c, t) && |t.slots| == Cap(c)
    ensures t.writer == s.writer && t.head == s.head && t.buf == s.buf && t.out == s.out
    ensures t.calls == s.calls[s.producers[i].rec.call := Accepted(s.producers[i].pos)]
    ensures forall k :: 0 <= k < Cap(c) && k != Index(c, s.producers[i].pos) ==> t.slots[k] == s.slots[k]
  {
    var b := Publish(c, s, i);
    ReachStep(c, b, Produce(i));
    t := Apply(c, b, Produce(i));
  }

  /** The second producer's call returns success while the first is still stalled. */
  lemma SecondAccepted(c: Config, e: LogEntry) returns (s: State)
    requires c.bits == 1 && c.batchSize == 1
    ensures IsReachable(c, s) && |s.slots| == Cap(c) && s.writer == Waiting
    ensures |s.calls| == 2 && s.calls[1] == Accepted(1)
    ensures s.slots[Index(c, s.head)].sq == s.head && s.buf == [] && s.out == []
  {
    s := StalledProducer(c, e);
    assert Cap(c) == 2;
    ReachStep(c, s, Call(1, e));
    s := Apply(c, s, Call(1, e));
    SmallMod(0, 2);
    SmallMod(1, 2);
    s := Claim(c, s, 1);
    s := Finish(c, s, 1);
  }

  /**
   * A flush does not cover every accepted record: the second producer's call has returned success, a flush
   * drains and acknowledges, and nothing has been written, because the first producer has yet to publish.
   */
  lemma FlushCanMiss(c: Config, e: LogEntry) returns (s: State)
    requires c.bits == 1 && c.batchSize == 1
    ensures IsReachable(c, s) && s.writer == LastFlush(Flushing)
    ensures |s.calls| == 2 && s.calls[1] == Accepted(1)
    ensures |s.slots| == Cap(c) && Apply(c, s, Write).out == []
  {
    s := SecondAccepted(c, e);
    ReachStep(c, s, AskFlush);
    s := Apply(c, s, AskFlush);
    s := EmptyDrain(c, s);
  }

  lemma EmptyDrain(c: Config, s: State) returns (t: State)
    requires c.batchSize == 1 && IsReachable(c, s) && |s.slots| == Cap(c)
    requires s.writer == Draining(Flushing, 0) && s.slots[Index(c, s.head)].sq == s.head
    ensures IsReachable(c, t) && t == s.(writer := LastFlush(Flushing))
  {
    ReachStep(c, s, Write);
    var a := Apply(c, s, Write);
    ReachStep(c, a, Write);
    var b := Apply(c, a, Write);
    ReachStep(c, b, Write);
    var d := Apply(c, b, Write);
    ReachStep(c, d, Write);
    t := Apply(c, d, Write);
  }
}
