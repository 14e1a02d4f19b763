/**
 * The asynchronous ring sink as a transition system: any number of producers, one background writer and one
 * closer share the ring. Every atomic load, compare-and-swap and store of ring.go, adapter.go and writer.go is
 * one step, and a schedule is an arbitrary sequence of steps.
 */
module Ring {
  import opened Bytes
  import opened Types
  import opened Payload
  import opened RingMath

  /** capacity is 2^bits; format renders one entry, which the writer appends to its buffer. */
  datatype Config = Config(bits: nat, block: bool, batchSize: nat, format: LogEntry -> bytes)

  predicate ConfigOk(c: Config) {
    c.bits >= 1 && c.batchSize >= 1
  }

  function Cap(c: Config): (r: nat)
    ensures r > 0
  {
    Pow2(c.bits)
  }

  /** The slot of a position: position & mask. */
  function Index(c: Config, pos: nat): (r: nat)
    ensures r == pos % Cap(c) && r < Cap(c)
  {
    MaskIsMod(pos, c.bits);
    BitAnd(pos, Cap(c) - 1)
  }

  datatype Slot = Slot(sq: nat, data: Copy)

  const EMPTY_COPY := Copy(0, 0, 0, [], [], [], [])

  /** A record under way: which call of Write it is, and the entry it was given. */
  datatype Rec = Rec(call: nat, entry: LogEntry)

  /** A producer between two atomic steps of adapter.enqueue and ring.enqueue; again marks the blocking retry loop. */
  datatype Producer =
    | Idle
    | Entered(rec: Rec)                                        // inflight raised
    | Trying(rec: Rec, again: bool)                            // at the top of ring.enqueue's loop
    | TailLoaded(rec: Rec, again: bool, pos: nat)
    | SeqLoaded(rec: Rec, again: bool, pos: nat, sq: nat)
    | Claimed(rec: Rec, pos: nat)                              // the compare-and-swap on tail succeeded
    | Filled(rec: Rec, pos: nat)                               // the slot holds the copy
    | Published(rec: Rec, pos: nat)                            // the slot's sequence is stored
    | Full(rec: Rec, again: bool)                              // ring.enqueue returned false
    | Refused(rec: Rec)                                        // about to count the record as dropped
    | DropCounted(rec: Rec)                                    // dropped raised

  datatype CallStatus = InCall(producer: nat) | Accepted(pos: nat) | Dropped

  /** What the writer is draining for; sawZero tells whether inflight was zero before this drain began. */
  datatype Mode = Running | Flushing | Final(sawZero: bool)

  datatype Writer =
    | Draining(mode: Mode, n: nat)
    | HeadLoaded(mode: Mode, n: nat, pos: nat)
    | ReadyLoaded(mode: Mode, n: nat, pos: nat, sq: nat)
    | Consuming(mode: Mode, n: nat, pos: nat)
    | Freeing(mode: Mode, n: nat, pos: nat)
    | BatchDone(mode: Mode, n: nat)
    | LastFlush(mode: Mode)
    | Waiting
    | Checking
    | Done

  /**
   * The shared state, and its history: claimed lists the records in claim order (so claimed[p] holds position p),
   * freed counts the positions given back, and calls says what became of every Write.
   */
  datatype State = State(
    slots: seq<Slot>, tail: nat, head: nat,
    inflight: int, dropped: nat, closing: bool, stop: bool,
    producers: seq<Producer>, writer: Writer, buf: bytes, out: bytes,
    claimed: seq<Rec>, freed: nat, calls: seq<CallStatus>)

  datatype Step =
    | Call(i: nat, entry: LogEntry)     // a producer enters Write
    | Produce(i: nat)                   // its next atomic step
    | Write                             // the writer's next atomic step; parked, its timer fires
    | AskFlush                          // a Flush request reaches the parked writer
    | TakeStop                          // the parked writer takes the stop signal
    | SetClosing                        // Close stores closing
    | SendStop                          // Close then closes the stop channel

  function Init(c: Config, producers: nat): State {
    State(seq(Cap(c), i requires 0 <= i < Cap(c) => Slot(i, EMPTY_COPY)), 0, 0, 0, 0, false, false,
          seq(producers, _ => Idle), Draining(Running, 0), [], [], [], 0, [])
  }

  /** One record's bytes: the formatted copy, newline-terminated. */
  function Line(c: Config, p: Copy): bytes {
    var t := c.format(Project(p, ZERO_ENTRY));
    if t == [] || t[|t| - 1] != 0x0a then t + [0x0a] else t
  }

  function Flush(s: State): State {
    s.(out := s.out + s.buf, buf := [])
  }

  function ProducerStep(c: Config, s: State, i: nat): (r: State)
    requires i < |s.producers| && |s.slots| == Cap(c)
    ensures |r.slots| == |s.slots| && |r.producers| == |s.producers|
  {
    match s.producers[i]
    case Idle => s
    case Entered(rec) =>
      s.(producers := s.producers[i := if s.closing then Refused(rec) else Trying(rec, false)])
    case Trying(rec, again) =>
      s.(producers := s.producers[i := TailLoaded(rec, again, s.tail)])
    case TailLoaded(rec, again, pos) =>
      s.(producers := s.producers[i := SeqLoaded(rec, again, pos, s.slots[Index(c, pos)].sq)])
    case SeqLoaded(rec, again, pos, sq) =>
      if sq == pos then
        if s.tail == pos then
          s.(tail := pos + 1, claimed := s.claimed + [rec], producers := s.producers[i := Claimed(rec, pos)])
        else
          s.(producers := s.producers[i := Trying(rec, again)])
      else if sq < pos then
        s.(producers := s.producers[i := Full(rec, again)])
      else
        s.(producers := s.producers[i := Trying(rec, again)])
    case Claimed(rec, pos) =>
      var k := Index(c, pos);
      s.(slots := s.slots[k := s.slots[k].(data := CopyOf(rec.entry))], producers := s.producers[i := Filled(rec, pos)])
    case Filled(rec, pos) =>
      var k := Index(c, pos);
      s.(slots := s.slots[k := s.slots[k].(sq := pos + 1)], producers := s.producers[i := Published(rec, pos)])
    case Published(rec, pos) =>
      if rec.call >= |s.calls| then s else
      s.(inflight := s.inflight - 1, calls := s.calls[rec.call := Accepted(pos)], producers := s.producers[i := Idle])
    case Full(rec, again) =>
      if !c.block then s.(producers := s.producers[i := Refused(rec)])
      else if again && s.closing then s.(producers := s.producers[i := Refused(rec)])
      else s.(producers := s.producers[i := Trying(rec, true)])
    case Refused(rec) =>
      if rec.call >= |s.calls| then s else
      s.(dropped := s.dropped + 1, calls := s.calls[rec.call := Dropped],
         producers := s.producers[i := DropCounted(rec)])
    case DropCounted(rec) =>
      s.(inflight := s.inflight - 1, producers := s.producers[i := Idle])
  }

  function WriterStep(c: Config, s: State): (r: State)
    requires |s.slots| == Cap(c)
    ensures |r.slots| == |s.slots| && |r.producers| == |s.producers|
  {
    match s.writer
    case Draining(mode, n) =>
      if n < c.batchSize then s.(writer := HeadLoaded(mode, n, s.head)) else s.(writer := BatchDone(mode, n))
    case HeadLoaded(mode, n, pos) =>
      s.(writer := ReadyLoaded(mode, n, pos, s.slots[Index(c, pos)].sq))
    case ReadyLoaded(mode, n, pos, sq) =>
      if sq == pos + 1 then
        if s.head == pos then s.(head := pos + 1, writer := Consuming(mode, n, pos))
        else s.(writer := Draining(mode, n))
      else if sq < pos + 1 then s.(writer := BatchDone(mode, n))
      else s.(writer := Draining(mode, n))
    case Consuming(mode, n, pos) =>
      s.(buf := s.buf + Line(c, s.slots[Index(c, pos)].data), writer := Freeing(mode, n, pos))
    case Freeing(mode, n, pos) =>
      var k := Index(c, pos);
      s.(slots := s.slots[k := s.slots[k].(sq := pos + Cap(c))], freed := s.freed + 1, writer := Draining(mode, n + 1))
    case BatchDone(mode, n) =>
      if n > 0 then Flush(s).(writer := Draining(mode, 0))
      else if mode == Running then s.(writer := Waiting)
      else s.(writer := LastFlush(mode))
    case LastFlush(mode) =>
      Flush(s).(writer := if mode == Final(true) then Done
                          else if mode == Final(false) then Checking
                          else Draining(Running, 0))
    case Waiting => s.(writer := Draining(Running, 0))
    case Checking => s.(writer := Draining(Final(s.inflight == 0), 0))
    case Done => s
  }

  /** The state after one step; a step that is not enabled changes nothing. */
  function Apply(c: Config, s: State, step: Step): (r: State)
    requires |s.slots| == Cap(c)
    ensures |r.slots| == |s.slots| && |r.producers| == |s.producers|
  {
    match step
    case Call(i, entry) =>
      if i < |s.producers| && s.producers[i].Idle? then
        s.(inflight := s.inflight + 1, calls := s.calls + [InCall(i)],
           producers := s.producers[i := Entered(Rec(|s.calls|, entry))])
      else s
    case Produce(i) => if i < |s.producers| then ProducerStep(c, s, i) else s
    case Write => WriterStep(c, s)
    case AskFlush => if s.writer.Waiting? then s.(writer := Draining(Flushing, 0)) else s
    case TakeStop => if s.writer.Waiting? && s.stop then s.(writer := Checking) else s
    case SetClosing => s.(closing := true)
    case SendStop => if s.closing then s.(stop := true) else s
  }

  /** The state after a schedule. */
  function Exec(c: Config, s: State, steps: seq<Step>): (r: State)
    requires |s.slots| == Cap(c)
    ensures |r.slots| == Cap(c) && |r.producers| == |s.producers|
    decreases |steps|
  {
    if steps == [] then s
    else Exec(c, Apply(c, s, steps[0]), steps[1..])
  }

  function Render(c: Config, recs: seq<Rec>): bytes {
    if recs == [] then [] else Render(c, recs[..|recs| - 1]) + Line(c, CopyOf(recs[|recs| - 1].entry))
  }

  // ---- The invariant ----

  predicate Owns(p: Producer) {
    p.Claimed? || p.Filled? || p.Published?
  }

  /** The producer that claimed position p and has not published it. */
  predicate Held(s: State, p: nat) {
    && p < |s.claimed|
    && var call := s.claimed[p].call;
       && call < |s.calls| && s.calls[call].InCall?
       && var i := s.calls[call].producer;
          && i < |s.producers|
          && (s.producers[i].Claimed? || s.producers[i].Filled?)
          && s.producers[i].pos == p
          && s.producers[i].rec == s.claimed[p]
  }

  /** A slot within the current lap: free, held by the producer that claimed it, or published with its copy. */
  predicate SlotOk(c: Config, s: State, p: nat)
    requires |s.slots| == Cap(c)
  {
    var slot := s.slots[Index(c, p)];
    if p >= s.tail then slot.sq == p
    else if slot.sq == p then Held(s, p)
    else p < |s.claimed| && slot.sq == p + 1 && slot.data == CopyOf(s.claimed[p].entry)
  }

  predicate SlotsOk(c: Config, s: State)
    requires |s.slots| == Cap(c)
  {
    forall p {:trigger SlotOk(c, s, p)} :: s.freed <= p < s.freed + Cap(c) ==> SlotOk(c, s, p)
  }

  predicate ProducerOk(c: Config, s: State, i: nat)
    requires i < |s.producers| && |s.slots| == Cap(c)
  {
    var p := s.producers[i];
    && (!p.Idle? ==> p.rec.call < |s.calls|)
    && (!p.Idle? && !p.DropCounted? ==> s.calls[p.rec.call] == InCall(i))
    && (p.DropCounted? ==> s.calls[p.rec.call] == Dropped)
    && (p.TailLoaded? ==> p.pos <= s.tail)
    && (p.SeqLoaded? ==> p.pos <= s.tail && (p.sq == p.pos ==> p.pos < s.freed + Cap(c)))
    && (Owns(p) ==> p.pos < s.tail && p.pos < |s.claimed| && s.claimed[p.pos] == p.rec)
    && (p.Claimed? || p.Filled? ==> s.freed <= p.pos && s.slots[Index(c, p.pos)].sq == p.pos)
    && (p.Filled? ==> s.slots[Index(c, p.pos)].data == CopyOf(p.rec.entry))
  }

  predicate ProducersOk(c: Config, s: State)
    requires |s.slots| == Cap(c)
  {
    forall i {:trigger ProducerOk(c, s, i)} :: 0 <= i < |s.producers| ==> ProducerOk(c, s, i)
  }

  /** A claimed position belongs to one call: one that returned success there, or one whose producer is still on it. */
  predicate ClaimOk(s: State, p: nat)
    requires p < |s.claimed|
  {
    var call := s.claimed[p].call;
    && call < |s.calls|
    && match s.calls[call]
       case Accepted(pos) => pos == p
       case Dropped => false
       case InCall(i) =>
         && i < |s.producers| && Owns(s.producers[i])
         && s.producers[i].pos == p && s.producers[i].rec == s.claimed[p]
  }

  predicate ClaimsOk(s: State) {
    forall p {:trigger ClaimOk(s, p)} :: 0 <= p < |s.claimed| ==> ClaimOk(s, p)
  }

  predicate CallOk(s: State, k: nat)
    requires k < |s.calls|
  {
    match s.calls[k]
    case Accepted(p) => p < |s.claimed| && s.claimed[p].call == k
    case Dropped => true
    case InCall(i) =>
      && i < |s.producers| && !s.producers[i].Idle? && !s.producers[i].DropCounted?
      && s.producers[i].rec.call == k
  }

  predicate CallsOk(s: State) {
    forall k {:trigger CallOk(s, k)} :: 0 <= k < |s.calls| ==> CallOk(s, k)
  }

  function InFlight(producers: seq<Producer>): set<nat> {
    set i: nat | i < |producers| && !producers[i].Idle?
  }

  function DroppedCalls(calls: seq<CallStatus>): set<nat> {
    set k: nat | k < |calls| && calls[k].Dropped?
  }

  /** No producer is past the closing check, and none can pass it again. */
  predicate Quiet(s: State) {
    s.closing && forall i :: 0 <= i < |s.producers| ==>
      s.producers[i].Idle? || s.producers[i].Entered? || s.producers[i].Refused? || s.producers[i].DropCounted?
  }

  function ModeOf(w: Writer): Mode {
    if w.Waiting? || w.Checking? then Running else if w.Done? then Final(true) else w.mode
  }

  function Rendered(s: State): nat {
    if s.writer.Freeing? then s.freed + 1 else s.freed
  }

  predicate WriterOk(c: Config, s: State)
    requires |s.slots| == Cap(c)
  {
    var w := s.writer;
    && s.head == s.freed + (if w.Consuming? || w.Freeing? then 1 else 0)
    && (w.HeadLoaded? || w.ReadyLoaded? ==> w.pos == s.head)
    && (w.ReadyLoaded? ==>
          && w.sq <= w.pos + 1
          && (w.sq == w.pos + 1 ==> s.head < s.tail && s.slots[Index(c, s.head)].sq == s.head + 1))
    && (w.ReadyLoaded? && w.mode == Final(true) && w.sq < w.pos + 1 ==> s.head == s.tail)
    && (w.Consuming? || w.Freeing? ==> w.pos == s.freed && s.slots[Index(c, w.pos)].sq == w.pos + 1)
    && (w.BatchDone? && w.mode == Final(true) && w.n == 0 ==> s.head == s.tail)
    && (w.LastFlush? ==> w.mode != Running && (w.mode == Final(true) ==> s.head == s.tail))
    && (w.Done? ==> s.head == s.tail && s.buf == [])
    && (s.stop ==> s.closing)
    && (w.Checking? || ModeOf(w).Final? ==> s.stop)
    && (ModeOf(w) == Final(true) ==> Quiet(s))
  }

  predicate CursorsOk(c: Config, s: State) {
    s.tail == |s.claimed| && s.freed <= s.head <= s.tail <= s.freed + Cap(c)
  }

  predicate CountsOk(c: Config, s: State) {
    && CursorsOk(c, s)
    && s.inflight == |InFlight(s.producers)|
    && s.dropped == |DroppedCalls(s.calls)|
    && Rendered(s) <= |s.claimed|
    && s.out + s.buf == Render(c, s.claimed[..Rendered(s)])
  }

  predicate Inv(c: Config, s: State) {
    && ConfigOk(c)
    && |s.slots| == Cap(c)
    && CountsOk(c, s) && SlotsOk(c, s) && ProducersOk(c, s) && ClaimsOk(s) && CallsOk(s) && WriterOk(c, s)
  }
}
