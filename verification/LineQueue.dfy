/** The file adapter's bounded two-buffer queue: producers, one consumer, waiters and wake-up tokens (file/queue.go). */
module LineQueue {
  import opened Bytes
  import opened Sequences

  /** A byte slice: which backing array it has (0 for none) and its contents. */
  datatype Slice = Slice(store: nat, data: bytes)

  const NIL_SLICE := Slice(0, [])

  datatype Refusal = FileClosed | QueueFull

  /** How one critical section of Push ends: pushed, refused, or parked on the room channel. */
  datatype Attempt = Pushed | Refused(why: Refusal) | Parked

  /** Where the consumer is: selecting, about to take, or writing what it took. stop marks the final drain. */
  datatype Consumer = Selecting | Woken(stop: bool) | Writing(chunk: Slice, lines: nat, stop: bool) | Stopped

  /** What was taken, then what is queued, is what was pushed, in lock order. */
  predicate InOrder(pushed: seq<bytes>, taken: bytes, queued: bytes) {
    Flatten(pushed) == taken + queued
  }

  lemma OnePushed(pushed: seq<bytes>, taken: bytes, queued: bytes, line: bytes)
    requires InOrder(pushed, taken, queued)
    ensures InOrder(pushed + [line], taken, queued + line)
  {
    assert (pushed + [line])[..|pushed|] == pushed;
    assert taken + (queued + line) == (taken + queued) + line;
  }

  lemma ChunkTaken(pushed: seq<bytes>, taken: bytes, queued: bytes)
    requires InOrder(pushed, taken, queued)
    ensures InOrder(pushed, taken + queued, [])
  {
    assert taken + queued + [] == taken + queued;
  }

  lemma OneLess(a: set<nat>, b: set<nat>, t: nat)
    requires a !! b && (t in a || t in b)
    ensures a - {t} !! b - {t}
    ensures a == {} ==> a - {t} == {}
    ensures |a - {t}| + |b - {t}| == |a| + |b| - 1
  {
    if t in a {
      assert b - {t} == b;
    } else {
      assert a - {t} == a;
    }
  }

  /**
   * Each method is one step between two waits: a region under the mutex, or one channel operation. Every schedule
   * of producers, consumer and closer is a sequence of these calls. here holds the producers parked on the open room
   * channel, woken those whose room has been closed, sending those between their append and their token.
   */
  class Queue {
    const capacity: nat
    const maxRetained: nat
    var buf: Slice
    var spare: Slice
    var queued: nat
    var inflight: nat
    var closed: bool
    var waiters: nat
    var room: nat
    var ready: bool
    var stopping: bool
    var consumer: Consumer
    var nextStore: nat
    ghost var closedRooms: set<nat>
    ghost var here: set<nat>
    ghost var woken: set<nat>
    ghost var sending: set<nat>
    ghost var pushed: seq<bytes>
    ghost var taken: bytes
    ghost var written: bytes

    /** The producers' buffer, the spare and the chunk being written never share storage. */
    ghost predicate StoresOk()
      reads this`buf, this`spare, this`consumer, this`nextStore
    {
      && buf.store < nextStore && spare.store < nextStore && spare.data == []
      && (buf.store != 0 ==> buf.store != spare.store)
      && (buf.store == 0 ==> buf.data == [])
      && (consumer.Writing? ==>
            && consumer.chunk.store < nextStore && spare == NIL_SLICE
            && (consumer.chunk.store != 0 ==> consumer.chunk.store != buf.store))
    }

    /** Never over capacity; the books of lines taken and lines queued balance. */
    ghost predicate CountsOk()
      reads this`queued, this`inflight, this`consumer, this`buf
    {
      && queued + inflight <= capacity
      && inflight == (if consumer.Writing? then consumer.lines else 0)
      && (queued == 0 ==> buf.data == [])
    }

    ghost predicate Seated()
      reads this`here, this`woken, this`waiters, this`closedRooms, this`room
    {
      here !! woken && waiters == |here| + |woken| && forall r <- closedRooms :: r < room
    }

    /**
     * No lost waiter: whoever is parked on the open room channel waits for a queue that is full and not closed.
     * Rooms are numbered in order of creation; the ones before the current one are closed, each closed once.
     */
    ghost predicate WaitersOk()
      reads this`here, this`woken, this`waiters, this`closedRooms, this`room, this`queued, this`inflight, this`closed
    {
      Seated() && (here != {} ==> queued + inflight >= capacity && !closed)
    }

    /** Queued lines are never forgotten: a token, a producer about to send one, or a consumer about to take. */
    ghost predicate WakeUpOk()
      reads this`stopping, this`closed, this`consumer, this`queued, this`ready, this`sending
    {
      && (stopping ==> closed)
      && (consumer.Stopped? ==> stopping && queued == 0)
      && (consumer.Woken? && consumer.stop ==> stopping)
      && (consumer.Writing? && consumer.stop ==> stopping && queued == 0)
      && (queued > 0 ==> ready || sending != {} || consumer.Woken?)
    }

    ghost predicate ContentOk()
      reads this`pushed, this`taken, this`buf, this`consumer, this`written
    {
      && InOrder(pushed, taken, buf.data)
      && taken == (if consumer.Writing? then written + consumer.chunk.data else written)
    }

    ghost predicate Valid()
      reads this
    {
      StoresOk() && CountsOk() && WaitersOk() && WakeUpOk() && ContentOk()
    }

    constructor (capacity: nat, maxRetained: nat)
      ensures Valid() && this.capacity == capacity && pushed == [] && !closed
    {
      this.capacity, this.maxRetained := capacity, maxRetained;
      buf, spare, queued, inflight := Slice(1, []), NIL_SLICE, 0, 0;
      closed, waiters, room, ready, stopping := false, 0, 0, false, false;
      consumer, nextStore := Selecting, 2;
      closedRooms, here, woken, sending, pushed, taken, written := {}, {}, {}, {}, [], [], [];
    }

    // ---- Producers ----

    /** append: in place when the backing array has room (as grow says), else into a new array. */
    method AppendLine(t: nat, line: bytes, grow: bool)
      requires Valid() && !closed && queued + inflight < capacity
      modifies this`buf, this`queued, this`nextStore, this`pushed, this`sending
      ensures Valid() && pushed == old(pushed) + [line] && sending == old(sending) + {t}
      ensures queued == old(queued) + 1 && buf.data == old(buf.data) + line
    {
      ghost var more := pushed + [line];
      var data := buf.data + line;
      OnePushed(pushed, taken, buf.data, line);
      if grow || buf.store == 0 {
        buf := Slice(nextStore, data);
        nextStore := nextStore + 1;
      } else {
        buf := buf.(data := data);
      }
      queued := queued + 1;
      pushed := more;
      sending := sending + {t};
    }

    /** A producer joins those parked on the open room. */
    method Park(t: nat)
      requires Valid() && !closed && queued + inflight >= capacity && t !in here && t !in woken
      modifies this`waiters, this`here
      ensures Valid() && here == old(here) + {t}
    {
      waiters := waiters + 1;
      here := here + {t};
    }

    /** The first critical section of Push. */
    method TryPush(t: nat, line: bytes, timeout: int, grow: bool) returns (r: Attempt)
      requires Valid() && t !in here && t !in woken
      modifies this`buf, this`queued, this`nextStore, this`pushed, this`sending, this`waiters, this`here
      ensures Valid()
      ensures r == if closed then Refused(FileClosed)
                   else if old(queued) + inflight < capacity then Pushed
                   else if timeout <= 0 then Refused(QueueFull)
                   else Parked
      ensures r.Pushed? ==> pushed == old(pushed) + [line] && sending == old(sending) + {t} && here == old(here)
      ensures !r.Pushed? ==> pushed == old(pushed) && buf == old(buf) && sending == old(sending)
      ensures here == if r.Parked? then old(here) + {t} else old(here)
    {
      if closed || queued + inflight >= capacity {
        if closed {
          return Refused(FileClosed);
        }
        if timeout <= 0 {
          return Refused(QueueFull);
        }
        Park(t);
        return Parked;
      }
      AppendLine(t, line, grow);
      return Pushed;
    }

    method Unpark(t: nat)
      requires Valid() && (t in here || t in woken)
      modifies this`waiters, this`here, this`woken
      ensures Valid() && here == old(here) - {t} && woken == old(woken) - {t}
    {
      OneLess(here, woken, t);
      waiters := waiters - 1;
      here, woken := here - {t}, woken - {t};
    }

    /**
     * A parked producer comes back under the mutex, because its room channel was closed or its timer fired; it then
     * pushes, gives up, or parks again.
     */
    method Resume(t: nat, line: bytes, expired: bool, grow: bool) returns (r: Attempt)
      requires Valid() && (t in woken || t in here)
      requires t in here ==> expired
      modifies this`buf, this`queued, this`nextStore, this`pushed, this`sending, this`waiters, this`here, this`woken
      ensures Valid()
      ensures r == if closed then Refused(FileClosed)
                   else if old(queued) + inflight < capacity then Pushed
                   else if expired then Refused(QueueFull)
                   else Parked
      ensures r.Pushed? ==> pushed == old(pushed) + [line] && sending == old(sending) + {t}
      ensures !r.Pushed? ==> pushed == old(pushed) && buf == old(buf) && sending == old(sending)
      ensures here == (if r.Parked? then old(here) - {t} + {t} else old(here) - {t}) && woken == old(woken) - {t}
    {
      Unpark(t);
      r := Settle(t, line, expired, grow);
    }

    /** The switch after a wait. */
    method Settle(t: nat, line: bytes, expired: bool, grow: bool) returns (r: Attempt)
      requires Valid() && t !in here && t !in woken
      modifies this`buf, this`queued, this`nextStore, this`pushed, this`sending, this`waiters, this`here
      ensures Valid()
      ensures r == if closed then Refused(FileClosed)
                   else if old(queued) + inflight < capacity then Pushed
                   else if expired then Refused(QueueFull)
                   else Parked
      ensures r.Pushed? ==> pushed == old(pushed) + [line] && sending == old(sending) + {t}
      ensures !r.Pushed? ==> pushed == old(pushed) && buf == old(buf) && sending == old(sending)
      ensures here == if r.Parked? then old(here) + {t} else old(here)
    {
      if closed {
        return Refused(FileClosed);
      } else if queued + inflight < capacity {
        AppendLine(t, line, grow);
        return Pushed;
      } else if expired {
        return Refused(QueueFull);
      }
      Park(t);
      return Parked;
    }

    /** The producer leaves its token, unless one is already there. */
    method SignalReady(t: nat)
      requires Valid() && t in sending
      modifies this`ready, this`sending
      ensures Valid() && ready && sending == old(sending) - {t}
    {
      ready := true;
      sending := sending - {t};
    }

    // ---- The consumer ----

    /** The select's three cases: a token, a flush request, the stop signal. */
    method ReceiveToken()
      requires Valid() && consumer == Selecting && ready
      modifies this`ready, this`consumer
      ensures Valid() && !ready && consumer == Woken(false)
    {
      ready := false;
      consumer := Woken(false);
    }

    method ReceiveFlush()
      requires Valid() && consumer == Selecting
      modifies this`consumer
      ensures Valid() && consumer == Woken(false)
    {
      consumer := Woken(false);
    }

    method ReceiveStop()
      requires Valid() && consumer == Selecting && stopping
      modifies this`consumer
      ensures Valid() && consumer == Woken(true)
    {
      consumer := Woken(true);
    }

    method Take() returns (chunk: Slice, lines: nat)
      requires Valid() && consumer.Woken?
      modifies this`buf, this`spare, this`queued, this`inflight, this`consumer, this`taken
      ensures Valid() && lines == old(queued) && queued == 0 && taken == Flatten(pushed)
      ensures lines == 0 ==> chunk == NIL_SLICE && taken == old(taken)
                             && consumer == (if old(consumer.stop) then Stopped else Selecting)
      ensures lines > 0 ==> chunk == old(buf) && consumer == Writing(chunk, lines, old(consumer.stop))
    {
      var stop := consumer.stop;
      if queued == 0 {
        consumer := if stop then Stopped else Selecting;
        return NIL_SLICE, 0;
      }
      chunk, lines := buf, queued;
      ChunkTaken(pushed, taken, buf.data);
      taken := taken + buf.data;
      buf, spare, queued := spare, NIL_SLICE, 0;
      inflight := inflight + lines;
      consumer := Writing(chunk, lines, stop);
    }

    /** Gives the written chunk back: its room is freed, and its array kept unless it grew past the limit. */
    method Done(cap: nat)
      requires Valid() && consumer.Writing?
      modifies this`spare, this`inflight, this`consumer, this`written
      modifies this`room, this`here, this`woken, this`closedRooms
      ensures Valid() && inflight == 0 && here == {} && woken == old(here) + old(woken)
      ensures written == old(written) + old(consumer.chunk.data)
      ensures consumer == if old(consumer.stop) then Stopped else Selecting
    {
      FinishChunk(cap);
      WakeWaiters();
    }

    method FinishChunk(cap: nat)
      requires Valid() && consumer.Writing?
      modifies this`spare, this`inflight, this`consumer, this`written
      ensures StoresOk() && CountsOk() && WakeUpOk() && ContentOk() && Seated() && inflight == 0
      ensures written == old(written) + old(consumer.chunk.data)
      ensures consumer == if old(consumer.stop) then Stopped else Selecting
    {
      inflight := inflight - consumer.lines;
      if cap <= maxRetained {
        spare := Slice(consumer.chunk.store, []);
      }
      written := written + consumer.chunk.data;
      consumer := if consumer.stop then Stopped else Selecting;
    }

    // ---- Closing ----

    /** Closes the open room and makes a new one, when someone waits. */
    method WakeWaiters()
      requires Seated()
      modifies this`room, this`here, this`woken, this`closedRooms
      ensures Seated() && here == {} && woken == old(here) + old(woken)
      ensures closedRooms == old(closedRooms) + (if waiters > 0 then {old(room)} else {})
      ensures old(room) !in old(closedRooms)
    {
      if waiters > 0 {
        closedRooms := closedRooms + {room};
        room := room + 1;
      }
      woken := woken + here;
      here := {};
    }

    method Close()
      requires Valid()
      modifies this`closed, this`room, this`here, this`woken, this`closedRooms
      ensures Valid() && closed && here == {} && woken == old(here) + old(woken)
    {
      closed := true;
      WakeWaiters();
    }

    /** The adapter closes the queue before it signals the writer to stop. */
    method SignalStop()
      requires Valid() && closed
      modifies this`stopping
      ensures Valid() && stopping
    {
      stopping := true;
    }
  }

  /**
   * Once the consumer has stopped after Close, nothing is queued, every accepted line has been written exactly once
   * and in lock order, and no producer waits on a room nobody will close.
   */
  lemma FinalDrainEmpties(q: Queue)
    requires q.Valid() && q.consumer.Stopped?
    ensures q.queued == 0 && q.inflight == 0 && q.closed && q.here == {}
    ensures q.written == Flatten(q.pushed)
  {
    assert q.written + [] == q.written;
  }

  /** While a producer is parked with no one about to wake it, the consumer holds a chunk or has work signalled. */
  lemma ParkedImpliesProgress(q: Queue)
    requires q.Valid() && q.here != {} && q.capacity > 0
    ensures q.consumer.Writing? || q.consumer.Woken? || q.ready || q.sending != {}
  {
  }
}
