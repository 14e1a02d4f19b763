/**
 * The channel-buffered wrapper: pooled copies, a lock around check-and-send, one background writer
 * (middleware/async.go).
 */
module AsyncWrapper {
  import opened Types
  import opened Json

  /** What a pooled copy holds of an entry: its scalars and the fields it emits. */
  function CopyOf(src: LogEntry): LogEntry {
    var n := if src.staticFieldCount > |src.staticFields| then |src.staticFields| else src.staticFieldCount;
    src.(staticFields := src.staticFields[..n], staticFieldCount := n)
  }

  /** Every adapter and formatter sees in the copy what it would have seen in the entry. */
  lemma CopySeenAlike(src: LogEntry)
    ensures RecordOf(CopyOf(src)) == RecordOf(src)
  {
    var n := if src.staticFieldCount > |src.staticFields| then |src.staticFields| else src.staticFieldCount;
    assert src.staticFields[..n][..n] == src.staticFields[..n];
  }

  /** A pooled entry copy. */
  class Copy {
    var entry: LogEntry

    constructor ()
      ensures entry == ZERO_ENTRY
    {
      entry := ZERO_ENTRY;
    }
  }

  predicate NoDup<T(==)>(s: seq<T>) {
    forall i, j :: 0 <= i < j < |s| ==> s[i] != s[j]
  }

  /** The head of a list with no duplicates may join a disjoint one. */
  lemma HeadReleased<T>(all: seq<T>, c: T, rest: seq<T>, pool: seq<T>)
    requires all == [c] + rest && NoDup(all) && NoDup(pool) && forall x :: x in pool ==> x !in all
    ensures NoDup(rest) && NoDup(pool + [c])
    ensures forall x :: x in pool + [c] ==> x !in rest
    ensures c in all && forall x :: x in rest ==> x in all
  {
    assert c == all[0];
    forall i | 0 <= i < |rest| ensures rest[i] != c && rest[i] in all {
      assert rest[i] == all[i + 1];
    }
    forall i, j | 0 <= i < j < |rest| ensures rest[i] != rest[j] {
      assert rest[i] == all[i + 1] && rest[j] == all[j + 1];
    }
    forall i | 0 <= i < |pool| ensures pool[i] != c {
      assert pool[i] in pool;
    }
  }

  datatype Outcome = Sent | Closed | BufferFull

  /**
   * Each method is one step of a writer, of Close, or of the background writer; every schedule is a sequence of
   * these calls. readers hold the lock for reading; sources are the entries their callers passed to Write, held
   * their copies between copying and sending. accepted lists the entries passed to the writes that returned nil, done
   * the copies the background writer has finished with, offered those it gave to the base adapter.
   */
  class AsyncAdapter {
    const capacity: nat
    const batchSize: nat
    var buffer: seq<Copy>
    var batch: seq<Copy>
    var pool: seq<Copy>
    var readers: set<nat>
    var held: map<nat, Copy>
    var closing: bool
    var stopped: bool
    var failing: bool
    ghost var sources: map<nat, LogEntry>
    ghost var accepted: seq<LogEntry>
    ghost var done: seq<LogEntry>
    ghost var offered: seq<LogEntry>
    ghost var lost: bool

    /** The copies accepted and not yet finished with, oldest first. */
    ghost function Pipe(): seq<Copy>
      reads this`batch, this`buffer
    {
      batch + buffer
    }

    /** Every copy has one owner: the pool, a writer, or a place in the pipe. */
    ghost predicate OwnersOk()
      reads this`batch, this`buffer, this`pool, this`held
    {
      && NoDup(Pipe()) && NoDup(pool)
      && (forall c :: c in pool ==> c !in Pipe())
      && (forall t <- held :: held[t] !in pool && held[t] !in Pipe())
      && (forall t <- held, u <- held :: t != u ==> held[t] != held[u])
    }

    /** Every held copy is that of the entry its writer was given. */
    ghost predicate HeldOk()
      reads this`held, this`sources, this`readers, set t | t in held :: held[t]
    {
      && held.Keys <= readers && sources.Keys == readers
      && (forall t <- held :: held[t].entry == CopyOf(sources[t]))
    }

    /** Accepted entries are finished with in order; copies of the rest sit in the pipe, unchanged. */
    ghost predicate ContentOk()
      reads this`batch, this`buffer, this`accepted, this`done, Pipe()
    {
      && |accepted| == |done| + |Pipe()|
      && (forall i :: 0 <= i < |done| ==> done[i] == CopyOf(accepted[i]))
      && (forall i :: 0 <= i < |Pipe()| ==> Pipe()[i].entry == CopyOf(accepted[|done| + i]))
    }

    ghost predicate Valid()
      reads this, Pipe(), set t | t in held :: held[t]
    {
      && OwnersOk() && ContentOk() && HeldOk()
      && |buffer| <= capacity
      && (closing ==> readers == {})
      && (stopped ==> closing && buffer == [] && batch == [])
      && (!lost ==> offered == done && !failing)
    }

    constructor (capacity: nat, batchSize: nat)
      ensures Valid() && accepted == [] && !closing && !stopped && !lost
    {
      this.capacity, this.batchSize := capacity, batchSize;
      buffer, batch, pool, readers, held := [], [], [], {}, map[];
      closing, stopped, failing := false, false, false;
      sources, accepted, done, offered, lost := map[], [], [], [], false;
    }

    // ---- Writers ----

    /** Takes the read lock and checks the closing flag under it; src is the entry passed to Write. */
    method BeginWrite(t: nat, ghost src: LogEntry) returns (closed: bool)
      requires Valid() && t !in readers
      modifies this`readers, this`sources
      ensures Valid() && closed == closing && readers == if closed then old(readers) else old(readers) + {t}
      ensures sources == if closed then old(sources) else old(sources)[t := src]
    {
      if closing {
        return true;
      }
      readers := readers + {t};
      sources := sources[t := src];
      return false;
    }

    /** Takes a copy from the pool, or makes one; nobody else has it. */
    method TakeCopy(pick: nat) returns (c: Copy)
      requires Valid()
      modifies this`pool
      ensures Valid() && c !in pool && c !in Pipe() && (forall t <- held :: held[t] != c)
      ensures c in old(pool) || fresh(c)
    {
      if pick < |pool| {
        c := pool[pick];
        assert c in pool;
        pool := pool[..pick] + pool[pick + 1..];
      } else {
        c := new Copy();
      }
    }

    /** Copies the entry into a pooled copy, or a new one, that only this writer owns. */
    method AcquireCopy(t: nat, src: LogEntry, pick: nat)
      requires Valid() && t in readers && t !in held && sources[t] == src
      modifies this`pool, this`held, pool
      ensures Valid() && t in held && held[t].entry == CopyOf(src) && held == old(held)[t := held[t]]
      ensures held[t] in old(pool) || fresh(held[t])
    {
      var c := TakeCopy(pick);
      FillCopy(c, src);
      Hold(t, c);
    }

    method Hold(t: nat, c: Copy)
      requires Valid() && t in readers && t !in held && c.entry == CopyOf(sources[t])
      requires c !in pool && c !in Pipe() && forall u <- held :: held[u] != c
      modifies this`held
      ensures Valid() && held == old(held)[t := c]
    {
      held := held[t := c];
    }

    /** Writing into a copy nobody else owns changes nothing accepted or held. */
    method FillCopy(c: Copy, src: LogEntry)
      requires Valid() && c !in Pipe() && (forall t <- held :: held[t] != c)
      modifies c
      ensures Valid() && c.entry == CopyOf(src)
    {
      c.entry := CopyOf(src);
    }

    /** Sends the copy when the buffer has room, else gives it back to the pool; then releases the lock. */
    method Send(t: nat) returns (r: Outcome)
      requires Valid() && t in held
      modifies this`buffer, this`pool, this`held, this`readers, this`sources, this`accepted
      ensures Valid() && r == if |old(buffer)| < capacity then Sent else BufferFull
      ensures accepted == if r == Sent then old(accepted) + [old(sources)[t]] else old(accepted)
      ensures held == old(held) - {t} && readers == old(readers) - {t} && sources == old(sources) - {t}
    {
      if |buffer| < capacity {
        Accept(t);
        r := Sent;
      } else {
        Refuse(t);
        r := BufferFull;
      }
    }

    method Accept(t: nat)
      requires Valid() && t in held && |buffer| < capacity
      modifies this`buffer, this`held, this`readers, this`sources, this`accepted
      ensures Valid() && accepted == old(accepted) + [old(sources)[t]]
      ensures held == old(held) - {t} && readers == old(readers) - {t} && sources == old(sources) - {t}
    {
      Enqueue(t);
      ReleaseLock(t);
      assert OwnersOk() && ContentOk();
    }

    method Refuse(t: nat)
      requires Valid() && t in held
      modifies this`pool, this`held, this`readers, this`sources
      ensures Valid() && held == old(held) - {t} && readers == old(readers) - {t} && sources == old(sources) - {t}
    {
      GiveBack(t);
      assert ContentOk() && HeldOk();
      ReleaseLock(t);
      assert OwnersOk() && ContentOk();
    }

    method Enqueue(t: nat)
      requires OwnersOk() && ContentOk() && HeldOk() && t in held
      modifies this`buffer, this`held, this`accepted
      ensures OwnersOk() && ContentOk() && HeldOk() && buffer == old(buffer) + [old(held[t])]
      ensures accepted == old(accepted) + [sources[t]] && held == old(held) - {t}
    {
      var c := held[t];
      held := held - {t};
      ghost var before := Pipe();
      buffer := buffer + [c];
      accepted := accepted + [sources[t]];
      assert Pipe() == before + [c];
    }

    method GiveBack(t: nat)
      requires OwnersOk() && HeldOk() && t in held
      modifies this`pool, this`held
      ensures OwnersOk() && HeldOk() && pool == old(pool) + [old(held[t])] && held == old(held) - {t}
    {
      var c := held[t];
      held := held - {t};
      pool := pool + [c];
    }

    method ReleaseLock(t: nat)
      requires HeldOk() && t in readers && t !in held
      modifies this`readers, this`sources
      ensures HeldOk() && readers == old(readers) - {t} && sources == old(sources) - {t}
    {
      readers := readers - {t};
      sources := sources - {t};
    }

    // ---- Close ----

    /** Takes the write lock, which no reader may hold, sets the flag and cancels the context. */
    method Close() returns (first: bool)
      requires Valid() && readers == {}
      modifies this`closing
      ensures Valid() && closing && first == !old(closing)
    {
      if closing {
        return false;
      }
      closing := true;
      return true;
    }

    // ---- The background writer ----

    method Receive() returns (full: bool)
      requires Valid() && !stopped && buffer != [] && !failing
      modifies this`buffer, this`batch
      ensures Valid() && Pipe() == old(Pipe()) && |buffer| == |old(buffer)| - 1 && full == (|batch| >= batchSize)
    {
      ghost var before := Pipe();
      batch, buffer := batch + [buffer[0]], buffer[1..];
      assert Pipe() == before;
      return |batch| >= batchSize;
    }

    /** Pulls everything buffered without blocking. */
    method DrainInto()
      requires Valid() && !stopped && !failing
      modifies this`buffer, this`batch
      ensures Valid() && buffer == [] && Pipe() == old(Pipe())
    {
      while buffer != []
        invariant Valid() && !stopped && Pipe() == old(Pipe())
        decreases |buffer|
      {
        var full := Receive();
      }
    }

    /** One turn of flushBatch: offers the entry unless an earlier one failed, and always releases the copy. */
    method WriteOne(fails: bool)
      requires Valid() && !stopped && batch != []
      modifies this`batch, this`pool, this`done, this`offered, this`failing, this`lost
      ensures Valid() && batch == old(batch)[1..] && pool == old(pool) + [old(batch)[0]]
      ensures offered == if old(failing) then old(offered) else old(offered) + [old(batch[0].entry)]
      ensures lost == (old(lost) || old(failing) || fails)
      ensures failing == (old(failing) || fails)
    {
      Offer(fails);
      assert OwnersOk() && ContentOk() && HeldOk();
      ReleaseCopy();
      assert HeldOk() && (!lost ==> offered == done);
    }

    method Offer(fails: bool)
      requires batch != []
      modifies this`offered, this`failing, this`lost
      ensures offered == if old(failing) then old(offered) else old(offered) + [batch[0].entry]
      ensures lost == (old(lost) || old(failing) || fails)
      ensures failing == (old(failing) || fails)
    {
      if failing {
        lost := true;
      } else {
        offered := offered + [batch[0].entry];
        if fails {
          failing, lost := true, true;
        }
      }
    }

    /** The copy at the head of the batch goes back to the pool. */
    method ReleaseCopy()
      requires OwnersOk() && ContentOk() && batch != []
      modifies this`batch, this`pool, this`done
      ensures OwnersOk() && ContentOk()
      ensures batch == old(batch)[1..] && pool == old(pool) + [old(batch)[0]]
      ensures done == old(done) + [old(batch)[0].entry]
    {
      ghost var before := Pipe();
      var c, rest := batch[0], batch[1..];
      assert before == [c] + (rest + buffer) && before[0] == c;
      HeadReleased(before, c, rest + buffer, pool);
      assert before[0].entry == CopyOf(accepted[|done| + 0]);
      done := done + [c.entry];
      batch := rest;
      pool := pool + [c];
      forall i | 0 <= i < |Pipe()| ensures Pipe()[i].entry == CopyOf(accepted[|done| + i]) {
        assert Pipe()[i] == before[i + 1];
      }
    }

    /** Offers a whole batch; the first failure skips the rest of it. */
    method FlushBatch(failures: set<nat>)
      requires Valid() && !stopped && !failing
      modifies this`batch, this`pool, this`done, this`offered, this`failing, this`lost
      ensures Valid() && batch == [] && !failing
      ensures failures == {} && !old(lost) ==> !lost
    {
      var n := 0;
      while batch != []
        invariant Valid() && !stopped
        invariant failures == {} ==> !failing && lost == old(lost)
        invariant failing ==> lost
        decreases |batch|
      {
        WriteOne(n in failures);
        n := n + 1;
      }
      failing := false;
    }

    /** The context is cancelled: drain, flush, exit. */
    method Shutdown(failures: set<nat>)
      requires Valid() && closing && !stopped && !failing
      modifies this`buffer, this`batch, this`pool, this`done, this`offered, this`failing, this`lost, this`stopped
      ensures Valid() && stopped
      ensures failures == {} && !old(lost) ==> !lost
    {
      DrainInto();
      if |batch| > 0 {
        FlushBatch(failures);
      }
      stopped := true;
    }
  }

  /**
   * Once Close has stopped the background writer, and the base never failed, the base was offered, once each and in
   * send order, a copy of every entry whose Write returned nil, in which it sees what it would have seen in the
   * entry; and every copy is back in the pool, once.
   */
  lemma StoppedMeansAllOffered(a: AsyncAdapter)
    requires a.Valid() && a.stopped && !a.lost
    ensures |a.offered| == |a.accepted|
    ensures forall i :: 0 <= i < |a.accepted| ==> RecordOf(a.offered[i]) == RecordOf(a.accepted[i])
    ensures a.Pipe() == [] && a.held == map[] && NoDup(a.pool)
  {
    forall i | 0 <= i < |a.accepted| ensures RecordOf(a.offered[i]) == RecordOf(a.accepted[i]) {
      CopySeenAlike(a.accepted[i]);
    }
  }
}
