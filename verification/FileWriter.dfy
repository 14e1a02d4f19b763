/** The writer goroutine: what the queue hands over is what the files hold (file/file.go). */
module FileWriter {
  import opened Bytes
  import opened Sequences
  import opened LineQueue
  import opened Rotation

  /** The answers the environment gives while one chunk is written. */
  datatype Answers = Answers(allowed: bool, now: int, stamp: bytes, renames: bool, o: Opening, w: Writing)

  /**
   * What is on disk is everything the consumer has given back, and its current chunk too once that is written. It
   * speaks of nothing a producer changes, so any number of pushes may fall between two steps of the writer.
   */
  ghost predicate InStep(q: Queue, f: FileStore, wrote: bool)
    reads q`written, q`taken, f`pieces
  {
    Flatten(f.pieces) == if wrote then q.taken else q.written
  }

  /** The chunk in hand goes to the file; lost tells whether any of it did not get there. */
  method WriteStep(q: Queue, f: FileStore, env: Answers) returns (lost: bool)
    requires q.Valid() && f.Valid() && q.consumer.Writing?
    modifies f
    ensures f.Valid()
    ensures old(InStep(q, f, false)) && !lost ==> InStep(q, f, true)
  {
    var chunk := q.consumer.chunk.data;
    var ok, n := f.WriteChunk(chunk, env.allowed, env.now, env.stamp, env.renames, env.o, env.w);
    FlattenSnoc(old(f.pieces), chunk[..n]);
    assert ok ==> chunk[..n] == chunk;
    lost := !ok;
  }

  /** The written chunk is given back. */
  method DoneStep(q: Queue, f: FileStore, cap: nat)
    requires q.Valid() && q.consumer.Writing?
    modifies q`spare, q`inflight, q`consumer, q`written, q`room, q`here, q`woken, q`closedRooms
    ensures q.Valid() && !q.consumer.Writing? && (q.consumer.Stopped? <==> old(q.consumer.stop))
    ensures old(InStep(q, f, true)) ==> InStep(q, f, false)
  {
    q.Done(cap);
  }

  /** One drain, start to end: takes every queued line, writes the chunk, gives the buffer back. */
  method Drain(q: Queue, f: FileStore, env: Answers, cap: nat) returns (lost: bool)
    requires q.Valid() && f.Valid() && q.consumer.Woken?
    modifies q, f
    ensures q.Valid() && f.Valid() && !q.consumer.Writing?
    ensures q.consumer.Stopped? <==> old(q.consumer.stop)
    ensures old(InStep(q, f, false)) && !lost ==> InStep(q, f, false)
  {
    var chunk, lines := q.Take();
    if lines == 0 {
      return false;
    }
    lost := WriteStep(q, f, env);
    DoneStep(q, f, cap);
  }

  /**
   * After Close and the final drain, if no chunk was lost, the backups in rotation order and the live file hold the
   * initial content followed by every accepted line, once each, in lock order.
   */
  lemma ClosedFilesHoldEverything(q: Queue, f: FileStore)
    requires q.Valid() && f.Valid() && q.consumer.Stopped? && InStep(q, f, false)
    ensures Contents(f.disk, f.backups) + LiveOn(f.disk, f.path) == f.initial + Flatten(q.pushed)
  {
    FinalDrainEmpties(q);
  }
}
