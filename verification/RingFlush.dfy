/** What a Flush of the ring sink covers, decided at the moment it is asked for (asyncring/adapter.go, writer.go). */
module RingFlush {
  import opened Types
  import opened Payload
  import opened Ring
  import opened RingProof
  import opened RingTheorems

  /** The writer is serving a flush request; the step that leaves this mode acknowledges it. */
  predicate InFlush(s: State) {
    ModeOf(s.writer) == Flushing
  }

  /** The destination has received the lines of some prefix of the claimed records that includes position pos. */
  ghost predicate Written(c: Config, s: State, pos: nat) {
    exists n: nat :: pos < n <= |s.claimed| && Render(c, s.claimed[..n]) <= s.out
  }

  /** Position pos is claimed, and no producer holds it or one below it. */
  ghost predicate NoneHeldUpTo(s: State, pos: nat) {
    pos < |s.claimed| && forall p: nat :: p <= pos ==> !Held(s, p)
  }

  // ---- Positions are released for good ----

  lemma ProducerGrows(c: Config, s: State, i: nat)
    requires |s.slots| == Cap(c) && i < |s.producers|
    ensures var t := ProducerStep(c, s, i); s.out <= t.out && s.claimed <= t.claimed
  {
  }

  /** A producer's step opens no call. */
  lemma ProducerDecides(c: Config, s: State, i: nat, k: nat)
    requires |s.slots| == Cap(c) && i < |s.producers| && k < |s.calls|
    ensures var t := ProducerStep(c, s, i); |t.calls| == |s.calls| && (t.calls[k].InCall? ==> t.calls[k] == s.calls[k])
  {
  }

  /** It moves that producer only, and takes a published one home. */
  lemma ProducerMovesAlone(c: Config, s: State, i: nat, j: nat)
    requires |s.slots| == Cap(c) && i < |s.producers| && j < |s.producers| && s.producers[j].Published?
    ensures var t := ProducerStep(c, s, i); t.producers[j].Idle? || t.producers[j] == s.producers[j]
  {
  }

  lemma ProducerReleases(c: Config, s: State, i: nat, p: nat)
    requires |s.slots| == Cap(c) && i < |s.producers| && p < |s.claimed| && ClaimOk(s, p) && !Held(s, p)
    ensures !Held(ProducerStep(c, s, i), p)
  {
    ProducerGrows(c, s, i);
    var call := s.claimed[p].call;
    ProducerDecides(c, s, i, call);
    if s.calls[call].InCall? {
      ProducerMovesAlone(c, s, i, s.calls[call].producer);
    }
  }

  lemma CallReleases(c: Config, s: State, i: nat, entry: LogEntry, p: nat)
    requires |s.slots| == Cap(c) && p < |s.claimed| && ClaimOk(s, p) && !Held(s, p)
    ensures !Held(Apply(c, s, Call(i, entry)), p)
  {
    var call := s.claimed[p].call;
    if s.calls[call].InCall? {
      var j := s.calls[call].producer;
      assert s.producers[j].Published?;
    }
  }

  /** A claimed position nobody holds is never held again. */
  lemma StaysReleased(c: Config, s: State, step: Step, p: nat)
    requires |s.slots| == Cap(c) && p < |s.claimed| && ClaimOk(s, p) && !Held(s, p)
    ensures !Held(Apply(c, s, step), p)
  {
    match step
    case Produce(i) =>
      if i < |s.producers| {
        ProducerReleases(c, s, i, p);
      }
    case Call(i, entry) => CallReleases(c, s, i, entry, p);
    case Write => WriterLeavesClaims(c, s);
    case _ =>
  }

  lemma NoneHeldStays(c: Config, s: State, step: Step, pos: nat)
    requires Inv(c, s) && NoneHeldUpTo(s, pos)
    ensures NoneHeldUpTo(Apply(c, s, step), pos)
  {
    StepMoves(c, s, step);
    forall p: nat | p <= pos ensures !Held(Apply(c, s, step), p) {
      assert ClaimOk(s, p);
      StaysReleased(c, s, step, p);
    }
  }

  // ---- The writer, one step at a time ----

  lemma WriterLeavesClaims(c: Config, s: State)
    requires |s.slots| == Cap(c)
    ensures var t := WriterStep(c, s);
            t.claimed == s.claimed && t.calls == s.calls && t.producers == s.producers && t.tail == s.tail
  {
  }

  lemma WriterGrows(c: Config, s: State)
    requires |s.slots| == Cap(c)
    ensures s.out <= WriterStep(c, s).out
  {
  }

  /** Outside the writer's own steps, a writer serving a flush stays where it is. */
  lemma OthersLeaveWriter(c: Config, s: State, step: Step)
    requires |s.slots| == Cap(c) && InFlush(s) && !step.Write?
    ensures var t := Apply(c, s, step); t.writer == s.writer && t.head == s.head
  {
  }

  lemma OutGrows(c: Config, s: State, step: Step)
    requires |s.slots| == Cap(c)
    ensures var t := Apply(c, s, step); s.out <= t.out && s.claimed <= t.claimed
  {
    match step
    case Produce(i) =>
      if i < |s.producers| {
        ProducerGrows(c, s, i);
      }
    case Write =>
      WriterLeavesClaims(c, s);
      WriterGrows(c, s);
    case _ =>
  }

  /** What has been written stays written. */
  lemma WrittenStays(c: Config, s: State, step: Step, pos: nat)
    requires |s.slots| == Cap(c) && Written(c, s, pos)
    ensures Written(c, Apply(c, s, step), pos)
  {
    var t := Apply(c, s, step);
    OutGrows(c, s, step);
    var n: nat :| pos < n <= |s.claimed| && Render(c, s.claimed[..n]) <= s.out;
    assert t.claimed[..n] == s.claimed[..n];
  }

  /** The writer has found nothing more to take, and is about to acknowledge unless it has a batch to flush first. */
  predicate Found(w: Writer) {
    (w.ReadyLoaded? && w.sq < w.pos + 1) || (w.BatchDone? && w.n == 0) || w.LastFlush?
  }

  /** What a flush keeps of a record that nobody stalls: it ends its drain only past the record. */
  ghost predicate Pending(s: State, pos: nat) {
    InFlush(s) && NoneHeldUpTo(s, pos) && (Found(s.writer) ==> pos < s.head)
  }

  lemma FlushEnds(c: Config, s: State, pos: nat)
    requires Inv(c, s) && s.writer.LastFlush? && Pending(s, pos)
    ensures Written(c, WriterStep(c, s), pos)
  {
    var t := WriterStep(c, s);
    assert pos < s.freed <= |t.claimed| && t.out == Render(c, t.claimed[..s.freed]);
  }

  lemma LoadFinds(c: Config, s: State, pos: nat)
    requires Inv(c, s) && s.writer.HeadLoaded? && Pending(s, pos)
    ensures Pending(WriterStep(c, s), pos)
  {
    NoneHeldStays(c, s, Write, pos);
    LoadHeadSequence(c, s);
  }

  /** Only the load of a slot's sequence can newly find nothing to take. */
  lemma FoundAtLoad(c: Config, s: State)
    requires ConfigOk(c) && |s.slots| == Cap(c) && InFlush(s) && !s.writer.LastFlush?
    ensures var t := WriterStep(c, s);
            InFlush(t) && s.head <= t.head && (Found(t.writer) ==> Found(s.writer) || s.writer.HeadLoaded?)
  {
  }

  lemma FlushMoves(c: Config, s: State, pos: nat)
    requires Inv(c, s) && Pending(s, pos) && !s.writer.LastFlush?
    ensures Pending(WriterStep(c, s), pos)
  {
    if s.writer.HeadLoaded? {
      LoadFinds(c, s, pos);
    } else {
      NoneHeldStays(c, s, Write, pos);
      FoundAtLoad(c, s);
    }
  }

  /** Every step leaves a record on its way to the destination, or there. */
  lemma PendingStep(c: Config, s: State, step: Step, pos: nat)
    requires Inv(c, s) && Pending(s, pos)
    ensures var t := Apply(c, s, step); Pending(t, pos) || Written(c, t, pos)
  {
    if !step.Write? {
      NoneHeldStays(c, s, step, pos);
      OthersLeaveWriter(c, s, step);
    } else if s.writer.LastFlush? {
      FlushEnds(c, s, pos);
    } else {
      FlushMoves(c, s, pos);
    }
  }

  lemma {:induction false} PendingRun(c: Config, s: State, steps: seq<Step>, pos: nat)
    requires Inv(c, s) && (Pending(s, pos) || Written(c, s, pos))
    ensures var t := Exec(c, s, steps); Pending(t, pos) || Written(c, t, pos)
    decreases |steps|
  {
    if steps != [] {
      StepKeeps(c, s, steps[0]);
      if Written(c, s, pos) {
        WrittenStays(c, s, steps[0], pos);
      } else {
        PendingStep(c, s, steps[0], pos);
      }
      PendingRun(c, Apply(c, s, steps[0]), steps[1..], pos);
    }
  }

  lemma {:induction false} NoneHeldRun(c: Config, s: State, steps: seq<Step>, pos: nat)
    requires Inv(c, s) && NoneHeldUpTo(s, pos)
    ensures NoneHeldUpTo(Exec(c, s, steps), pos)
    decreases |steps|
  {
    if steps != [] {
      StepKeeps(c, s, steps[0]);
      NoneHeldStays(c, s, steps[0], pos);
      NoneHeldRun(c, Apply(c, s, steps[0]), steps[1..], pos);
    }
  }

  lemma NoneBelowAccepted(c: Config, s: State, k: nat)
    requires Inv(c, s) && k < |s.calls| && s.calls[k].Accepted?
    requires forall p: nat :: Held(s, p) ==> s.calls[k].pos < p
    ensures NoneHeldUpTo(s, s.calls[k].pos)
  {
    assert CallOk(s, k);
  }

  /**
   * Flush keeps its promise to a record nobody stalls. Flush is called in s, where call k has returned success
   * and no producer holds a position below its record. Whatever all participants do until the request
   * reaches the writer, and whatever they do after that, the writer is still serving the request or the
   * record's line has been handed to the destination, after the lines of every record claimed before it.
   */
  lemma FlushWrites(c: Config, s: State, k: nat, before: seq<Step>, after: seq<Step>)
    requires IsReachable(c, s) && k < |s.calls| && s.calls[k].Accepted? && |s.slots| == Cap(c)
    requires forall p: nat :: Held(s, p) ==> s.calls[k].pos < p
    requires Exec(c, s, before).writer.Waiting?
    ensures var t := Exec(c, Apply(c, Exec(c, s, before), AskFlush), after);
            InFlush(t) || Written(c, t, s.calls[k].pos)
  {
    var pos := s.calls[k].pos;
    ReachableInv(c, s);
    NoneBelowAccepted(c, s, k);
    ExecKeeps(c, s, before);
    NoneHeldRun(c, s, before, pos);
    var u := Exec(c, s, before);
    StepKeeps(c, u, AskFlush);
    NoneHeldStays(c, u, AskFlush, pos);
    PendingRun(c, Apply(c, u, AskFlush), after, pos);
  }

  // ---- The condition is exact ----

  lemma LineNonEmpty(c: Config, p: Copy)
    ensures |Line(c, p)| > 0
  {
  }

  lemma {:induction false} RenderLonger(c: Config, recs: seq<Rec>, m: nat, n: nat)
    requires m < n <= |recs|
    ensures |Render(c, recs[..m])| < |Render(c, recs[..n])|
    decreases n
  {
    assert recs[..n][..n - 1] == recs[..n - 1];
    LineNonEmpty(c, CopyOf(recs[n - 1].entry));
    if m < n - 1 {
      RenderLonger(c, recs, m, n - 1);
    }
  }

  function Batch(w: Writer): nat {
    if w.LastFlush? || w.Waiting? || w.Checking? || w.Done? then 0 else w.n
  }

  function Stage(w: Writer): nat {
    match w
    case Draining(_, _) => 6
    case HeadLoaded(_, _, _) => 5
    case ReadyLoaded(_, _, _, _) => 4
    case Consuming(_, _, _) => 3
    case Freeing(_, _, _) => 2
    case BatchDone(_, _) => 1
    case _ => 0
  }

  /** Nearer the acknowledgement: fewer positions to free, or a smaller batch, or a later stage of the same turn. */
  predicate Nearer(t: State, s: State) {
    || s.freed < t.freed
    || (s.freed == t.freed && Batch(t.writer) < Batch(s.writer))
    || (s.freed == t.freed && Batch(t.writer) == Batch(s.writer) && Stage(t.writer) < Stage(s.writer))
  }

  lemma TakeProgress(c: Config, s: State)
    requires |s.slots| == Cap(c) && WriterOk(c, s) && InFlush(s) && s.writer.ReadyLoaded?
    ensures InFlush(WriterStep(c, s)) && Nearer(WriterStep(c, s), s)
  {
  }

  lemma TurnProgress(c: Config, s: State)
    requires |s.slots| == Cap(c) && InFlush(s) && !s.writer.ReadyLoaded? && !s.writer.LastFlush?
    ensures InFlush(WriterStep(c, s)) && Nearer(WriterStep(c, s), s)
  {
  }

  /** Each of the writer's own steps brings the end of the flush nearer. */
  lemma WriterProgress(c: Config, s: State)
    requires Inv(c, s) && InFlush(s) && !s.writer.LastFlush?
    ensures var t := WriterStep(c, s); InFlush(t) && Nearer(t, s) && t.freed <= t.tail == s.tail
  {
    StepKeeps(c, s, Write);
    WriterLeavesClaims(c, s);
    if s.writer.ReadyLoaded? {
      TakeProgress(c, s);
    } else {
      TurnProgress(c, s);
    }
  }

  /** Left to itself the writer finishes a flush, with its buffer empty. */
  lemma {:induction false} FlushFinishes(c: Config, s: State) returns (steps: seq<Step>)
    requires Inv(c, s) && InFlush(s)
    ensures var t := Exec(c, s, steps);
            && !InFlush(t) && t.writer == Draining(Running, 0) && t.buf == []
            && t.claimed == s.claimed && t.calls == s.calls && t.producers == s.producers
    decreases s.tail - s.freed, Batch(s.writer), Stage(s.writer)
  {
    StepKeeps(c, s, Write);
    WriterLeavesClaims(c, s);
    var rest := [];
    if !s.writer.LastFlush? {
      WriterProgress(c, s);
      rest := FlushFinishes(c, WriterStep(c, s));
    }
    steps := [Write] + rest;
    assert steps[1..] == rest;
  }

  lemma HeldUnwritten(c: Config, s: State, p: nat, pos: nat)
    requires Inv(c, s) && s.buf == [] && s.writer.Draining? && Held(s, p) && p <= pos
    ensures !Written(c, s, pos)
  {
    assert ProducerOk(c, s, s.calls[s.claimed[p].call].producer);
    assert s.out == Render(c, s.claimed[..s.freed]);
    forall n: nat | pos < n <= |s.claimed| ensures !(Render(c, s.claimed[..n]) <= s.out) {
      RenderLonger(c, s.claimed, s.freed, n);
    }
  }

  /** A producer stalled at or below a record lets a flush be acknowledged with the record unwritten. */
  lemma FlushMisses(c: Config, u: State, p: nat, pos: nat) returns (after: seq<Step>)
    requires Inv(c, u) && u.writer.Waiting? && Held(u, p) && p <= pos
    ensures var t := Exec(c, Apply(c, u, AskFlush), after); !InFlush(t) && !Written(c, t, pos)
  {
    var v := Apply(c, u, AskFlush);
    StepKeeps(c, u, AskFlush);
    after := FlushFinishes(c, v);
    ExecKeeps(c, v, after);
    HeldUnwritten(c, Exec(c, v, after), p, pos);
  }

  /**
   * Exactly when a flush covers an accepted record. The request reaches the parked writer in u: every schedule
   * that gets as far as the acknowledgement has the record written if and only if, in u, no producer holds
   * a position below the record.
   */
  lemma FlushExactly(c: Config, u: State, k: nat)
    requires IsReachable(c, u) && |u.slots| == Cap(c) && u.writer.Waiting?
    requires k < |u.calls| && u.calls[k].Accepted?
    ensures (forall after: seq<Step> :: var t := Exec(c, Apply(c, u, AskFlush), after);
               InFlush(t) || Written(c, t, u.calls[k].pos))
       <==> (forall p: nat :: Held(u, p) ==> u.calls[k].pos < p)
  {
    ReachableInv(c, u);
    var pos := u.calls[k].pos;
    if forall p: nat :: Held(u, p) ==> pos < p {
      forall after: seq<Step>
        ensures var t := Exec(c, Apply(c, u, AskFlush), after); InFlush(t) || Written(c, t, pos)
      {
        assert Exec(c, u, []) == u;
        FlushWrites(c, u, k, [], after);
      }
    } else {
      var p: nat :| Held(u, p) && p <= pos;
      var after := FlushMisses(c, u, p, pos);
    }
  }
}
