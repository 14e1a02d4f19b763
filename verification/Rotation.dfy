/** The file writer: rotation, fresh backup names, and what the disk then holds (file/file.go, file/rotation.go). */
module Rotation {
  import opened Bytes
  import opened Sequences

  // ".gz"
  const GZ: bytes := [0x2e, 0x67, 0x7a]

  /** The name tried at step i: the base, then the base with a counter. */
  function Candidate(base: bytes, i: nat): bytes {
    if i == 0 then base else base + [0x2d] + NatText(i)
  }

  lemma CandidatesDiffer(base: bytes, i: nat, j: nat)
    requires i != j
    ensures Candidate(base, i) != Candidate(base, j)
  {
    NatTextParses(i);
    NatTextParses(j);
    assert j != 0 ==> Candidate(base, j)[|base| + 1..] == NatText(j);
    assert i != 0 ==> Candidate(base, i)[|base| + 1..] == NatText(i);
  }

  /** Names no rotation may take: a file has the name, or has it with .gz appended. */
  function Blocked(names: set<bytes>): set<bytes> {
    names + set n | n in names && |n| >= 3 && n[|n| - 3..] == GZ :: n[..|n| - 3]
  }

  lemma BlockedMeans(names: set<bytes>, n: bytes)
    ensures n in Blocked(names) <==> n in names || n + GZ in names
  {
    assert (n + GZ)[..|n|] == n && (n + GZ)[|n|..] == GZ;
    if n in Blocked(names) && n !in names {
      var m :| m in names && |m| >= 3 && m[|m| - 3..] == GZ && m[..|m| - 3] == n;
      assert m == n + GZ;
    }
  }

  lemma {:induction false} SubsetSize<T>(a: set<T>, b: set<T>)
    requires a <= b
    ensures |a| <= |b|
  {
    if a != {} {
      var x :| x in a;
      SubsetSize(a - {x}, b - {x});
    }
  }

  /** The result of opening the log path for appending: opened, refused, or opened but not measured. */
  datatype Opening = OpenOk | OpenRefused | StatRefused

  /** The result of a write: all of it, or an error after some bytes. */
  datatype Writing = WroteAll | WroteSome(n: nat)

  /** The contents of the named files, in order. */
  function Contents(disk: map<bytes, bytes>, names: seq<bytes>): bytes
    requires forall k :: 0 <= k < |names| ==> names[k] in disk
  {
    if names == [] then [] else Contents(disk, names[..|names| - 1]) + disk[names[|names| - 1]]
  }

  lemma {:induction false} ContentsSame(a: map<bytes, bytes>, b: map<bytes, bytes>, names: seq<bytes>)
    requires forall k :: 0 <= k < |names| ==> names[k] in a && names[k] in b && a[names[k]] == b[names[k]]
    ensures Contents(a, names) == Contents(b, names)
  {
    if names != [] {
      ContentsSame(a, b, names[..|names| - 1]);
    }
  }

  lemma ContentsSnoc(disk: map<bytes, bytes>, names: seq<bytes>, name: bytes)
    requires name in disk && forall k :: 0 <= k < |names| ==> names[k] in disk
    ensures Contents(disk, names + [name]) == Contents(disk, names) + disk[name]
  {
    assert (names + [name])[..|names|] == names;
  }

  predicate AllOn(disk: map<bytes, bytes>, names: seq<bytes>, path: bytes) {
    && (forall k :: 0 <= k < |names| ==> names[k] in disk && names[k] != path)
    && (forall i, j :: 0 <= i < j < |names| ==> names[i] != names[j])
  }

  function LiveOn(disk: map<bytes, bytes>, path: bytes): bytes {
    if path in disk then disk[path] else []
  }

  /** The backups in rotation order, then the live file, are the initial content and everything written since. */
  ghost predicate Balanced(disk: map<bytes, bytes>, path: bytes, backups: seq<bytes>, initial: bytes,
                           pieces: seq<bytes>)
  {
    AllOn(disk, backups, path) && Contents(disk, backups) + LiveOn(disk, path) == initial + Flatten(pieces)
  }

  /** Renaming the live file to a fresh name moves its content from one side of the books to the other. */
  lemma RenameBalances(disk: map<bytes, bytes>, path: bytes, backup: bytes, backups: seq<bytes>, initial: bytes,
                       pieces: seq<bytes>)
    requires Balanced(disk, path, backups, initial, pieces) && path in disk && backup !in disk
    ensures Balanced((disk - {path})[backup := disk[path]], path, backups + [backup], initial, pieces)
  {
    var moved := (disk - {path})[backup := disk[path]];
    ContentsSame(disk, moved, backups);
    ContentsSnoc(moved, backups, backup);
    assert Contents(moved, backups + [backup]) + [] == Contents(moved, backups + [backup]);
  }

  lemma CreateBalances(disk: map<bytes, bytes>, path: bytes, backups: seq<bytes>, initial: bytes, pieces: seq<bytes>)
    requires Balanced(disk, path, backups, initial, pieces) && path !in disk
    ensures Balanced(disk[path := []], path, backups, initial, pieces)
  {
    ContentsSame(disk, disk[path := []], backups);
  }

  lemma AppendBalances(disk: map<bytes, bytes>, path: bytes, backups: seq<bytes>, initial: bytes, pieces: seq<bytes>,
                       part: bytes)
    requires Balanced(disk, path, backups, initial, pieces) && path in disk
    ensures Balanced(disk[path := disk[path] + part], path, backups, initial, pieces + [part])
  {
    var grown := disk[path := disk[path] + part];
    ContentsSame(disk, grown, backups);
    FlattenSnoc(pieces, part);
    Regroup(Contents(disk, backups), disk[path], initial, Flatten(pieces), part);
  }

  lemma Regroup(a: bytes, b: bytes, c: bytes, d: bytes, e: bytes)
    requires a + b == c + d
    ensures a + (b + e) == c + (d + e)
  {
    assert a + (b + e) == (a + b) + e;
    assert c + (d + e) == (c + d) + e;
  }

  lemma NothingAdded(pieces: seq<bytes>)
    ensures Flatten(pieces + [[]]) == Flatten(pieces)
  {
    FlattenSnoc(pieces, []);
  }

  /** The writer goroutine's file state over a disk; the environment's answers come as arguments. */
  class FileStore {
    const path: bytes
    const maxSize: int
    const retryDelay: nat
    var disk: map<bytes, bytes>
    var isOpen: bool
    var currentSize: nat
    var nextRotation: int
    ghost const initial: bytes
    ghost var backups: seq<bytes>
    ghost var pieces: seq<bytes>

    ghost predicate Valid()
      reads this
    {
      && Balanced(disk, path, backups, initial, pieces)
      && (isOpen ==> path in disk && currentSize <= |disk[path]|)
    }

    /** The size the adapter keeps is the live file's, as long as no write failed half way. */
    ghost predicate SizeExact()
      reads this
    {
      isOpen && path in disk && currentSize == |disk[path]|
    }

    constructor (path: bytes, maxSize: int, retryDelay: nat, disk: map<bytes, bytes>)
      ensures Valid() && this.path == path && this.disk == disk && backups == [] && pieces == []
      ensures initial == LiveOn(disk, path)
    {
      this.path, this.maxSize, this.retryDelay, this.disk := path, maxSize, retryDelay, disk;
      isOpen, currentSize, nextRotation := false, 0, 0;
      initial, backups, pieces := LiveOn(disk, path), [], [];
    }

    /** Opens the log path for appending, creating it when missing, and measures it. */
    method OpenFile(o: Opening) returns (ok: bool)
      requires Valid() && !isOpen
      modifies this`disk, this`isOpen, this`currentSize
      ensures Valid() && (ok <==> o == OpenOk) && (ok ==> SizeExact()) && isOpen == ok
      ensures LiveOn(disk, path) == old(LiveOn(disk, path))
    {
      if o == OpenRefused {
        return false;
      }
      if path !in disk {
        CreateBalances(disk, path, backups, initial, pieces);
        disk := disk[path := []];
      }
      if o == StatRefused {
        return false;
      }
      isOpen, currentSize := true, |disk[path]|;
      return true;
    }

    function ShouldRotate(extra: nat): bool
      reads this`currentSize
    {
      maxSize > 0 && currentSize + extra > maxSize
    }

    /** A name that neither an existing backup nor its compressed form uses. */
    method BackupName(stamp: bytes) returns (name: bytes)
      ensures name !in disk && name + GZ !in disk
      ensures exists i :: name == Candidate(path + [0x2e] + stamp, i)
    {
      var base := path + [0x2e] + stamp;
      ghost var tried: set<bytes> := {};
      var i := 0;
      name := base;
      BlockedMeans(disk.Keys, name);
      while name in disk || name + GZ in disk
        invariant name == Candidate(base, i)
        invariant tried <= Blocked(disk.Keys) && |tried| == i
        invariant forall n :: n in tried ==> exists j :: 0 <= j < i && n == Candidate(base, j)
        invariant name in Blocked(disk.Keys) <==> name in disk || name + GZ in disk
        decreases |Blocked(disk.Keys)| - i
      {
        forall j | 0 <= j < i ensures Candidate(base, j) != name {
          CandidatesDiffer(base, j, i);
        }
        tried := tried + {name};
        SubsetSize(tried, Blocked(disk.Keys));
        i := i + 1;
        name := base + [0x2d] + NatText(i);
        BlockedMeans(disk.Keys, name);
      }
    }

    /** Closes the file, renames it to a fresh backup name, and opens a new one; a failed rename reopens the old one. */
    method SwapFile(stamp: bytes, renames: bool, o: Opening) returns (ok: bool)
      requires Valid()
      modifies this`disk, this`isOpen, this`currentSize, this`backups
      ensures Valid() && pieces == old(pieces)
      ensures ok <==> renames && path in old(disk) && o == OpenOk
      ensures ok ==> SizeExact() && LiveOn(disk, path) == []
      ensures if renames && path in old(disk)
              then exists name :: backups == old(backups) + [name] && name !in old(disk) && name + GZ !in old(disk)
              else backups == old(backups) && LiveOn(disk, path) == old(LiveOn(disk, path))
      ensures isOpen <==> o == OpenOk
    {
      isOpen := false;
      var backup := BackupName(stamp);
      if !renames || path !in disk {
        var reopened := OpenFile(o);
        return false;
      }
      RenameBalances(disk, path, backup, backups, initial, pieces);
      disk := (disk - {path})[backup := disk[path]];
      backups := backups + [backup];
      ok := OpenFile(o);
    }

    /** Rotates when due; a failed rotation is not retried before the delay has passed. */
    method RotateIfDue(extra: nat, now: int, stamp: bytes, renames: bool, o: Opening)
      requires Valid()
      modifies this`disk, this`isOpen, this`currentSize, this`nextRotation, this`backups
      ensures Valid() && pieces == old(pieces)
      ensures old(SizeExact()) && maxSize > 0 && now >= old(nextRotation) && renames && o == OpenOk ==>
                SizeExact() && (|LiveOn(disk, path)| + extra <= maxSize || LiveOn(disk, path) == [])
    {
      if ShouldRotate(extra) && now >= nextRotation {
        var rotated := SwapFile(stamp, renames, o);
        if !rotated {
          nextRotation := now + retryDelay;
        }
      }
    }

    /**
     * Writes a chunk, rotating first when it would take the file past its limit. Of a failed write n bytes remain;
     * an open circuit breaker and a file that could not be reopened lose the chunk.
     */
    method WriteChunk(chunk: bytes, allowed: bool, now: int, stamp: bytes, renames: bool, o: Opening, w: Writing)
      returns (ok: bool, n: nat)
      requires Valid()
      modifies this`disk, this`isOpen, this`currentSize, this`nextRotation, this`backups, this`pieces
      ensures Valid() && n <= |chunk| && (ok ==> n == |chunk|)
      ensures pieces == old(pieces) + [chunk[..n]]
      ensures ok && old(SizeExact()) && maxSize > 0 && now >= old(nextRotation) && renames && o == OpenOk ==>
                |LiveOn(disk, path)| <= maxSize || LiveOn(disk, path) == chunk
    {
      if !allowed {
        LoseChunk();
        return false, 0;
      }
      RotateIfDue(|chunk|, now, stamp, renames, o);
      if !isOpen {
        LoseChunk();
        return false, 0;
      }
      ok, n := AppendChunk(chunk, w);
    }

    /** A chunk of which nothing reaches the disk. */
    method LoseChunk()
      requires Valid()
      modifies this`pieces
      ensures Valid() && pieces == old(pieces) + [[]]
    {
      NothingAdded(pieces);
      pieces := pieces + [[]];
    }

    method AppendChunk(chunk: bytes, w: Writing) returns (ok: bool, n: nat)
      requires Valid() && isOpen
      modifies this`disk, this`currentSize, this`pieces
      ensures Valid() && n <= |chunk| && (ok ==> n == |chunk|) && pieces == old(pieces) + [chunk[..n]]
      ensures LiveOn(disk, path) == old(LiveOn(disk, path)) + chunk[..n]
    {
      n := match w case WroteAll => |chunk| case WroteSome(k) => if k < |chunk| then k else |chunk|;
      AppendBalances(disk, path, backups, initial, pieces, chunk[..n]);
      disk := disk[path := disk[path] + chunk[..n]];
      pieces := pieces + [chunk[..n]];
      if w.WroteSome? {
        return false, n;
      }
      currentSize := currentSize + n;
      return true, n;
    }
  }
}
