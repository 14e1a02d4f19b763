/** The chunked field store with presence bit masks, against a plain map (types/indexed_field_store.go). */
module IndexedStore {
  import opened Bytes
  import opened Sequences
  import opened RingMath
  import opened Bits

  const WORD: nat := 64

  /** The store's fields at one moment: chunks of keys and values, a mask per chunk, and the assigned IDs. */
  datatype Snapshot = Snapshot(size: nat, keys: seq<seq<bytes>>, values: seq<seq<bytes>>, masks: seq<nat>,
                               ids: map<bytes, nat>)

  /** The chunk and the place within it of an ID: its quotient and remainder by the chunk size. */
  function Chunk(size: nat, id: nat): nat
    requires size > 0
    decreases id
  {
    if id < size then 0 else 1 + Chunk(size, id - size)
  }

  function Local(size: nat, id: nat): (r: nat)
    requires size > 0
    ensures r < size
    decreases id
  {
    if id < size then id else Local(size, id - size)
  }

  lemma {:induction false} PlaceByDivision(size: nat, id: nat)
    requires size > 0
    ensures Chunk(size, id) == id / size && Local(size, id) == id % size
    decreases id
  {
    if id < size {
      DivisionUnique(id, size, 0, id);
    } else {
      PlaceByDivision(size, id - size);
      var q, r := (id - size) / size, (id - size) % size;
      assert size * (q + 1) == size * q + size;
      DivisionUnique(id, size, q + 1, r);
    }
  }

  lemma {:induction false} SamePlace(size: nat, a: nat, b: nat)
    requires size > 0 && Chunk(size, a) == Chunk(size, b) && Local(size, a) == Local(size, b)
    ensures a == b
    decreases a
  {
    if a >= size {
      SamePlace(size, a - size, b - size);
    }
  }

  /** IDs are dense and no two keys share one. */
  predicate IdsOk(ids: map<bytes, nat>) {
    && (forall k <- ids :: ids[k] < |ids|)
    && (forall k <- ids, m <- ids :: ids[k] == ids[m] ==> k == m)
  }

  predicate ShapeOk(s: Snapshot) {
    && s.size > 0 && |s.keys| == |s.values| == |s.masks|
    && (forall c :: 0 <= c < |s.keys| ==> |s.keys[c]| == |s.values[c]| == s.size && s.masks[c] < Pow2(WORD))
  }

  /** The presence bit of slot i of chunk c. */
  predicate Present(s: Snapshot, c: nat, i: nat) {
    c < |s.masks| && Bit(s.masks[c], i)
  }

  /** A present slot holds the key whose ID it is the place of. */
  predicate SlotOk(s: Snapshot, c: nat, i: nat)
    requires ShapeOk(s)
  {
    Present(s, c, i) ==>
      && i < s.size && s.keys[c][i] in s.ids
      && Chunk(s.size, s.ids[s.keys[c][i]]) == c && Local(s.size, s.ids[s.keys[c][i]]) == i
  }

  ghost predicate StoreOk(s: Snapshot) {
    ShapeOk(s) && IdsOk(s.ids) && forall c: nat, i: nat :: SlotOk(s, c, i)
  }

  predicate Live(s: Snapshot, key: bytes)
    requires s.size > 0
  {
    key in s.ids && Present(s, Chunk(s.size, s.ids[key]), Local(s.size, s.ids[key]))
  }

  /** The map the store stands for. */
  ghost function Contents(s: Snapshot): map<bytes, bytes>
    requires StoreOk(s)
  {
    map key | key in s.ids && Live(s, key) :: ValueOf(s, key)
  }

  function ValueOf(s: Snapshot, key: bytes): bytes
    requires ShapeOk(s) && Live(s, key)
  {
    s.values[Chunk(s.size, s.ids[key])][Local(s.size, s.ids[key])]
  }

  /** A key in a live slot is live, at that slot. */
  lemma SlotIsLive(s: Snapshot, c: nat, i: nat)
    requires StoreOk(s) && Present(s, c, i)
    ensures i < s.size && Live(s, s.keys[c][i]) && ValueOf(s, s.keys[c][i]) == s.values[c][i]
  {
    assert SlotOk(s, c, i);
  }

  lemma LiveSlot(s: Snapshot, key: bytes)
    requires StoreOk(s) && Live(s, key)
    ensures s.keys[Chunk(s.size, s.ids[key])][Local(s.size, s.ids[key])] == key
  {
    var c, i := Chunk(s.size, s.ids[key]), Local(s.size, s.ids[key]);
    assert SlotOk(s, c, i);
    SamePlace(s.size, s.ids[s.keys[c][i]], s.ids[key]);
  }

  // ---- Setting a field ----

  function AssignId(ids: map<bytes, nat>, key: bytes): map<bytes, nat> {
    if key in ids then ids else ids[key := |ids|]
  }

  lemma AssignIdOk(ids: map<bytes, nat>, key: bytes)
    requires IdsOk(ids)
    ensures IdsOk(AssignId(ids, key)) && key in AssignId(ids, key)
    ensures key !in ids ==> forall k <- ids :: AssignId(ids, key)[k] == ids[k]
  {
  }

  function Stored(s: Snapshot, c: nat, i: nat, key: bytes, value: bytes): Snapshot
    requires ShapeOk(s) && c < |s.keys| && i < s.size
  {
    s.(keys := s.keys[c := s.keys[c][i := key]], values := s.values[c := s.values[c][i := value]],
       masks := s.masks[c := BitOr(s.masks[c], OneShifted(i))])
  }

  lemma StoredShape(s: Snapshot, c: nat, i: nat, key: bytes, value: bytes)
    requires ShapeOk(s) && c < |s.keys| && i < s.size
    ensures ShapeOk(Stored(s, c, i, key, value))
  {
    SetBitFits(s.masks[c], i);
  }

  lemma StoredPresent(s: Snapshot, c: nat, i: nat, key: bytes, value: bytes, d: nat, j: nat)
    requires ShapeOk(s) && c < |s.keys| && i < s.size
    ensures Present(Stored(s, c, i, key, value), d, j) <==> Present(s, d, j) || (d == c && j == i && i < WORD)
  {
    if d == c {
      SetBitBits(s.masks[c], i, j);
    }
  }

  lemma StoredOk(s: Snapshot, c: nat, i: nat, key: bytes, value: bytes)
    requires StoreOk(s) && c < |s.keys| && i < s.size
    requires key in s.ids && Chunk(s.size, s.ids[key]) == c && Local(s.size, s.ids[key]) == i
    ensures StoreOk(Stored(s, c, i, key, value))
  {
    var t := Stored(s, c, i, key, value);
    StoredShape(s, c, i, key, value);
    forall d: nat, j: nat ensures SlotOk(t, d, j) {
      StoredPresent(s, c, i, key, value, d, j);
      assert SlotOk(s, d, j);
    }
  }

  lemma PlaceIsKey(ids: map<bytes, nat>, size: nat, k: bytes, key: bytes)
    requires IdsOk(ids) && size > 0 && k in ids && key in ids
    requires Chunk(size, ids[k]) == Chunk(size, ids[key]) && Local(size, ids[k]) == Local(size, ids[key])
    ensures k == key
  {
    SamePlace(size, ids[k], ids[key]);
  }

  lemma StoredLive(s: Snapshot, c: nat, i: nat, key: bytes, value: bytes, k: bytes)
    requires ShapeOk(s) && IdsOk(s.ids) && c < |s.keys| && i < s.size
    requires key in s.ids && Chunk(s.size, s.ids[key]) == c && Local(s.size, s.ids[key]) == i
    ensures Live(Stored(s, c, i, key, value), k) <==> Live(s, k) || (k == key && i < WORD)
  {
    if k in s.ids {
      var d, j := Chunk(s.size, s.ids[k]), Local(s.size, s.ids[k]);
      StoredPresent(s, c, i, key, value, d, j);
      if d == c && j == i {
        PlaceIsKey(s.ids, s.size, k, key);
      }
    }
  }

  lemma GridUpdate(v: seq<seq<bytes>>, c: nat, i: nat, x: bytes, d: nat, j: nat)
    requires c < |v| && i < |v[c]| && d < |v| && j < |v[d]|
    ensures v[c := v[c][i := x]][d][j] == if d == c && j == i then x else v[d][j]
  {
  }

  /** Storing at the place of key changes the value looked up for key only. */
  lemma StoredValue(s: Snapshot, t: Snapshot, c: nat, i: nat, key: bytes, value: bytes, k: bytes)
    requires ShapeOk(s) && ShapeOk(t) && IdsOk(s.ids) && c < |s.keys| && i < s.size
    requires t.ids == s.ids && t.size == s.size && t.values == s.values[c := s.values[c][i := value]]
    requires key in s.ids && Chunk(s.size, s.ids[key]) == c && Local(s.size, s.ids[key]) == i && Live(t, k)
    ensures k == key ==> ValueOf(t, k) == value
    ensures k != key && Live(s, k) ==> ValueOf(t, k) == ValueOf(s, k)
  {
    var id := s.ids[k];
    var d, j := Chunk(s.size, id), Local(s.size, id);
    assert d < |s.values| && j < |s.values[d]|;
    GridUpdate(s.values, c, i, value, d, j);
    if d == c && j == i {
      PlaceIsKey(s.ids, s.size, k, key);
    }
  }

  lemma NotLivePast(s: Snapshot, key: bytes)
    requires ShapeOk(s) && key in s.ids && Local(s.size, s.ids[key]) >= WORD
    ensures !Live(s, key)
  {
    var c, i := Chunk(s.size, s.ids[key]), Local(s.size, s.ids[key]);
    if c < |s.masks| {
      NoHighBits(s.masks[c], WORD, i);
    }
  }

  /** Two stores with the same lookups stand for the same map. */
  lemma SameContents(s: Snapshot, t: Snapshot, m: map<bytes, bytes>)
    requires StoreOk(t)
    requires forall k :: Live(t, k) <==> k in m
    requires forall k :: k in m ==> ValueOf(t, k) == m[k]
    ensures Contents(t) == m
  {
  }

  /**
   * Storing a key at the place of its ID updates the map at that key and nowhere else, when its place within the
   * chunk has a bit in the 64-bit mask; otherwise the field stays invisible and the map is what it was.
   */
  lemma StoredMeans(s: Snapshot, c: nat, i: nat, key: bytes, value: bytes)
    requires StoreOk(s) && c < |s.keys| && i < s.size
    requires key in s.ids && Chunk(s.size, s.ids[key]) == c && Local(s.size, s.ids[key]) == i
    ensures StoreOk(Stored(s, c, i, key, value))
    ensures Contents(Stored(s, c, i, key, value)) == if i < WORD then Contents(s)[key := value] else Contents(s)
  {
    StoredOk(s, c, i, key, value);
    var t := Stored(s, c, i, key, value);
    var want := if i < WORD then Contents(s)[key := value] else Contents(s);
    if i >= WORD {
      NotLivePast(s, key);
    }
    forall k ensures (Live(t, k) <==> k in want) && (k in want ==> ValueOf(t, k) == want[k]) {
      StoredLive(s, c, i, key, value, k);
      LookupIsContents(s, k);
      if Live(t, k) {
        StoredValue(s, t, c, i, key, value, k);
      }
    }
    SameContents(s, t, want);
  }

  lemma LookupIsContents(s: Snapshot, k: bytes)
    requires StoreOk(s)
    ensures Live(s, k) <==> k in Contents(s)
    ensures Live(s, k) ==> Contents(s)[k] == ValueOf(s, k)
  {
  }

  /** A new ID's place is not present yet. */
  lemma NewIdUnused(s: Snapshot, key: bytes)
    requires StoreOk(s) && key !in s.ids
    ensures !Present(s, Chunk(s.size, |s.ids|), Local(s.size, |s.ids|))
  {
    var c, i := Chunk(s.size, |s.ids|), Local(s.size, |s.ids|);
    assert SlotOk(s, c, i);
    if Present(s, c, i) {
      SamePlace(s.size, s.ids[s.keys[c][i]], |s.ids|);
      assert false;
    }
  }

  lemma AssignedOk(s: Snapshot, key: bytes)
    requires StoreOk(s) && key !in s.ids
    ensures StoreOk(s.(ids := s.ids[key := |s.ids|]))
  {
    var t := s.(ids := s.ids[key := |s.ids|]);
    AssignIdOk(s.ids, key);
    forall c: nat, i: nat ensures SlotOk(t, c, i) {
      assert SlotOk(s, c, i);
    }
  }

  lemma AssignedMeans(s: Snapshot, key: bytes)
    requires StoreOk(s)
    ensures StoreOk(s.(ids := AssignId(s.ids, key))) && Contents(s.(ids := AssignId(s.ids, key))) == Contents(s)
  {
    if key !in s.ids {
      var t := s.(ids := s.ids[key := |s.ids|]);
      AssignedOk(s, key);
      NewIdUnused(s, key);
      forall k ensures (Live(t, k) <==> k in Contents(s)) && (k in Contents(s) ==> ValueOf(t, k) == Contents(s)[k]) {
        LookupIsContents(s, k);
      }
      SameContents(s, t, Contents(s));
    }
  }

  function Grown(s: Snapshot): Snapshot {
    s.(keys := s.keys + [seq(s.size, _ => [])], values := s.values + [seq(s.size, _ => [])], masks := s.masks + [0])
  }

  lemma GrownSlots(s: Snapshot, c: nat, i: nat)
    requires StoreOk(s)
    ensures SlotOk(Grown(s), c, i) && (Present(Grown(s), c, i) <==> Present(s, c, i))
  {
    ZeroHasNoBits(i);
    assert SlotOk(s, c, i);
  }

  lemma GrownOk(s: Snapshot)
    requires StoreOk(s)
    ensures StoreOk(Grown(s))
  {
    forall c: nat, i: nat ensures SlotOk(Grown(s), c, i) {
      GrownSlots(s, c, i);
    }
  }

  lemma GrownLookup(s: Snapshot, k: bytes)
    requires StoreOk(s) && ShapeOk(Grown(s))
    ensures Live(Grown(s), k) <==> Live(s, k)
    ensures Live(s, k) ==> ValueOf(Grown(s), k) == ValueOf(s, k)
  {
    if k in s.ids {
      GrownSlots(s, Chunk(s.size, s.ids[k]), Local(s.size, s.ids[k]));
    }
  }

  lemma GrownMeans(s: Snapshot)
    requires StoreOk(s)
    ensures StoreOk(Grown(s)) && Contents(Grown(s)) == Contents(s)
  {
    GrownOk(s);
    var t, m := Grown(s), Contents(s);
    forall k ensures (Live(t, k) <==> k in m) && (k in m ==> ValueOf(t, k) == m[k]) {
      LookupIsContents(s, k);
      GrownLookup(s, k);
    }
    SameContents(s, t, m);
  }

  // ---- Clearing and rewriting ----

  lemma ClearedMeans(s: Snapshot, t: Snapshot)
    requires StoreOk(s) && ShapeOk(t) && t.size == s.size && t.ids == s.ids
    requires forall c :: 0 <= c < |t.masks| ==> t.masks[c] == 0
    ensures StoreOk(t) && Contents(t) == map[]
  {
    forall c: nat, i: nat ensures !Present(t, c, i) {
      ZeroHasNoBits(i);
    }
  }

  /** t is s with every live value rewritten by fn. */
  ghost predicate Rewrites(s: Snapshot, t: Snapshot, fn: (bytes, bytes) -> bytes)
    requires ShapeOk(s) && ShapeOk(t)
  {
    && t.size == s.size && t.keys == s.keys && t.masks == s.masks && t.ids == s.ids
    && forall c: nat, i: nat :: c < |s.values| && i < s.size && Present(s, c, i) ==>
         t.values[c][i] == fn(s.keys[c][i], s.values[c][i])
  }

  lemma RewrittenMeans(s: Snapshot, t: Snapshot, fn: (bytes, bytes) -> bytes)
    requires StoreOk(s) && ShapeOk(t) && Rewrites(s, t, fn)
    ensures StoreOk(t)
    ensures Contents(t) == map k | k in Contents(s) :: fn(k, Contents(s)[k])
  {
    forall c: nat, i: nat ensures SlotOk(t, c, i) {
      assert SlotOk(s, c, i);
    }
    forall k | Live(s, k) ensures ValueOf(t, k) == fn(k, Contents(s)[k]) {
      LiveSlot(s, k);
    }
    SameContents(s, t, map k | k in Contents(s) :: fn(k, Contents(s)[k]));
  }

  // ---- Listing ----

  /** The fields of one chunk at the given places. */
  function Pairs(keys: seq<bytes>, values: seq<bytes>, places: seq<nat>): (r: seq<(bytes, bytes)>)
    requires |keys| == |values| && forall k :: 0 <= k < |places| ==> places[k] < |keys|
    ensures |r| == |places| && forall k :: 0 <= k < |r| ==> r[k] == (keys[places[k]], values[places[k]])
  {
    if places == [] then [] else [(keys[places[0]], values[places[0]])] + Pairs(keys, values, places[1..])
  }

  /** Every set bit below width has a slot in its chunk. */
  predicate PlacesFit(places: seq<nat>, size: nat) {
    forall k :: 0 <= k < |places| ==> places[k] < size
  }

  predicate RowsFit(s: Snapshot, width: nat) {
    && ShapeOk(s)
    && forall c :: 0 <= c < |s.masks| ==>
         s.masks[c] < Pow2(width) && PlacesFit(Ones(s.masks[c], 0, width), s.size)
  }

  function Row(s: Snapshot, width: nat, c: nat): seq<(bytes, bytes)>
    requires RowsFit(s, width) && c < |s.masks|
  {
    Pairs(s.keys[c], s.values[c], Ones(s.masks[c], 0, width))
  }

  function AllRows(s: Snapshot, width: nat): (r: seq<seq<(bytes, bytes)>>)
    requires RowsFit(s, width)
  {
    seq(|s.masks|, c requires 0 <= c < |s.masks| => Row(s, width, c))
  }

  /** The fields of the first n chunks. */
  function Rows(s: Snapshot, width: nat, n: nat): seq<(bytes, bytes)>
    requires RowsFit(s, width) && n <= |s.masks|
  {
    Flatten(AllRows(s, width)[..n])
  }

  lemma StoreRowsFit(s: Snapshot, width: nat)
    requires StoreOk(s) && width == WORD
    ensures RowsFit(s, width)
  {
    forall c: nat | c < |s.masks| ensures PlacesFit(Ones(s.masks[c], 0, width), s.size) {
      OnesAre(s.masks[c], 0, width);
      var places := Ones(s.masks[c], 0, width);
      forall k | 0 <= k < |places| ensures places[k] < s.size {
        assert places[k] in places;
        assert SlotOk(s, c, places[k]);
      }
    }
  }

  lemma {:induction false} PlaceOrder(size: nat, a: nat, b: nat)
    requires size > 0
    requires Chunk(size, a) < Chunk(size, b) || (Chunk(size, a) == Chunk(size, b) && Local(size, a) < Local(size, b))
    ensures a < b
    decreases a
  {
    if a >= size {
      PlaceOrder(size, a - size, b - size);
    }
  }

  /** A row lists live fields of its chunk with their values, in ID order. */
  lemma RowIsLive(s: Snapshot, width: nat, c: nat, r: seq<(bytes, bytes)>)
    requires StoreOk(s) && c < |s.masks| && RowsFit(s, width)
    requires r == Row(s, width, c)
    ensures forall k :: 0 <= k < |r| ==>
              r[k].0 in s.ids && Live(s, r[k].0) && ValueOf(s, r[k].0) == r[k].1 && Chunk(s.size, s.ids[r[k].0]) == c
    ensures forall a, b :: 0 <= a < b < |r| ==> s.ids[r[a].0] < s.ids[r[b].0]
  {
    var places := Ones(s.masks[c], 0, width);
    OnesAre(s.masks[c], 0, width);
    forall k | 0 <= k < |r|
      ensures r[k].0 in s.ids && Live(s, r[k].0) && ValueOf(s, r[k].0) == r[k].1
              && Chunk(s.size, s.ids[r[k].0]) == c && Local(s.size, s.ids[r[k].0]) == places[k]
    {
      assert places[k] in places;
      assert SlotOk(s, c, places[k]);
      SlotIsLive(s, c, places[k]);
    }
    forall a, b | 0 <= a < b < |r| ensures s.ids[r[a].0] < s.ids[r[b].0] {
      PlaceOrder(s.size, s.ids[r[a].0], s.ids[r[b].0]);
    }
  }

  ghost predicate ListsLive(s: Snapshot, r: seq<(bytes, bytes)>, n: nat)
    requires ShapeOk(s)
  {
    && (forall k :: 0 <= k < |r| ==>
          r[k].0 in s.ids && Live(s, r[k].0) && ValueOf(s, r[k].0) == r[k].1 && Chunk(s.size, s.ids[r[k].0]) < n)
    && (forall a, b :: 0 <= a < b < |r| ==> s.ids[r[a].0] < s.ids[r[b].0])
  }

  /** A list of chunk n's fields follows a list of earlier chunks' fields. */
  lemma ListsJoin(s: Snapshot, front: seq<(bytes, bytes)>, last: seq<(bytes, bytes)>, n: nat)
    requires ShapeOk(s) && ListsLive(s, front, n) && ListsLive(s, last, n + 1)
    requires forall k :: 0 <= k < |last| ==> Chunk(s.size, s.ids[last[k].0]) == n
    ensures ListsLive(s, front + last, n + 1)
  {
    var r := front + last;
    forall k | 0 <= k < |r|
      ensures r[k].0 in s.ids && Live(s, r[k].0) && ValueOf(s, r[k].0) == r[k].1 && Chunk(s.size, s.ids[r[k].0]) < n + 1
    {
      assert if k < |front| then r[k] == front[k] else r[k] == last[k - |front|];
    }
    forall a, b | 0 <= a < b < |r| ensures s.ids[r[a].0] < s.ids[r[b].0] {
      if a < |front| <= b {
        PlaceOrder(s.size, s.ids[front[a].0], s.ids[last[b - |front|].0]);
      }
    }
  }

  lemma {:induction false} RowsListLive(s: Snapshot, width: nat, n: nat)
    requires StoreOk(s) && RowsFit(s, width) && n <= |s.masks|
    ensures ListsLive(s, Rows(s, width, n), n)
  {
    if n > 0 {
      RowsListLive(s, width, n - 1);
      RowsStep(s, width, n - 1);
      RowIsLive(s, width, n - 1, Row(s, width, n - 1));
      ListsJoin(s, Rows(s, width, n - 1), Row(s, width, n - 1), n - 1);
    }
  }

  lemma RowHas(s: Snapshot, width: nat, key: bytes)
    requires StoreOk(s) && RowsFit(s, width) && Live(s, key)
    ensures (key, ValueOf(s, key)) in Row(s, width, Chunk(s.size, s.ids[key]))
  {
    var c, i := Chunk(s.size, s.ids[key]), Local(s.size, s.ids[key]);
    LiveSlot(s, key);
    if i >= width {
      NoHighBits(s.masks[c], width, i);
    }
    OnesAre(s.masks[c], 0, width);
    var places := Ones(s.masks[c], 0, width);
    assert i in places;
    var k :| 0 <= k < |places| && places[k] == i;
    assert Row(s, width, c)[k] == (key, ValueOf(s, key));
  }

  lemma InPart<T>(p: T, a: seq<T>, b: seq<T>, later: seq<T>)
    requires p in b && a + b <= later
    ensures p in later
  {
    var k :| 0 <= k < |b| && b[k] == p;
    assert later[|a| + k] == (a + b)[|a| + k] == p;
  }

  lemma RowsGrow(s: Snapshot, width: nat, c: nat, n: nat)
    requires RowsFit(s, width) && c <= n <= |s.masks|
    ensures Rows(s, width, c) <= Rows(s, width, n)
  {
    FlattenGrows(AllRows(s, width), c, n);
  }

  lemma RowInRows(s: Snapshot, width: nat, c: nat, n: nat, p: (bytes, bytes))
    requires RowsFit(s, width) && c < n <= |s.masks| && p in Row(s, width, c)
    ensures p in Rows(s, width, n)
  {
    RowsGrow(s, width, c + 1, n);
    RowsStep(s, width, c);
    InPart(p, Rows(s, width, c), Row(s, width, c), Rows(s, width, n));
  }

  lemma {:induction false} DistinctKeysCount(r: seq<(bytes, bytes)>, keys: set<bytes>)
    requires forall a, b :: 0 <= a < b < |r| ==> r[a].0 != r[b].0
    requires forall k :: k in keys <==> exists j :: 0 <= j < |r| && r[j].0 == k
    ensures |keys| == |r|
  {
    if r == [] {
      assert keys == {};
    } else {
      var front, last := r[..|r| - 1], r[|r| - 1].0;
      forall k ensures k in keys - {last} <==> exists j :: 0 <= j < |front| && front[j].0 == k {
        if k in keys - {last} {
          var j :| 0 <= j < |r| && r[j].0 == k;
          assert front[j].0 == k;
        }
        if j :| 0 <= j < |front| && front[j].0 == k {
          assert r[j].0 == k;
        }
      }
      DistinctKeysCount(front, keys - {last});
      assert r[|r| - 1].0 == last;
    }
  }

  /** r is m as a list: every pair once, in the order of the keys' IDs. */
  ghost predicate Lists(r: seq<(bytes, bytes)>, m: map<bytes, bytes>, ids: map<bytes, nat>) {
    && |r| == |m|
    && (forall k :: 0 <= k < |r| ==> r[k].0 in m && r[k].0 in ids && m[r[k].0] == r[k].1)
    && (forall key :: key in m ==> (key, m[key]) in r)
    && (forall a, b :: 0 <= a < b < |r| ==> ids[r[a].0] < ids[r[b].0])
  }

  lemma ListedIsMap(s: Snapshot, r: seq<(bytes, bytes)>, m: map<bytes, bytes>, n: nat)
    requires ShapeOk(s) && ListsLive(s, r, n)
    requires forall k :: Live(s, k) <==> k in m
    requires forall k :: k in m ==> m[k] == ValueOf(s, k) && (k, m[k]) in r
    ensures Lists(r, m, s.ids)
  {
    forall k ensures k in m.Keys <==> exists j :: 0 <= j < |r| && r[j].0 == k {
      if k in m {
        var j :| 0 <= j < |r| && r[j] == (k, m[k]);
        assert r[j].0 == k;
      }
    }
    DistinctKeysCount(r, m.Keys);
  }

  /**
   * The listing is the map: each live key once, with its last value, in ID order, and as many pairs as keys.
   */
  lemma ListingIsMap(s: Snapshot, width: nat)
    requires StoreOk(s) && width == WORD
    ensures RowsFit(s, width)
    ensures Lists(Rows(s, width, |s.masks|), Contents(s), s.ids)
  {
    StoreRowsFit(s, width);
    RowsListLive(s, width, |s.masks|);
    var m := Contents(s);
    forall k ensures Live(s, k) <==> k in m {
      LookupIsContents(s, k);
    }
    forall k | k in m ensures m[k] == ValueOf(s, k) && (k, m[k]) in Rows(s, width, |s.masks|) {
      RowHas(s, width, k);
      RowInRows(s, width, Chunk(s.size, s.ids[k]), |s.masks|, (k, ValueOf(s, k)));
    }
    ListedIsMap(s, Rows(s, width, |s.masks|), m, |s.masks|);
  }

  // ---- The store ----

  function HashFrom(key: bytes, h: bv32): bv32 {
    if key == [] then h else HashFrom(key[1..], (h ^ (key[0] as bv32)) * 16777619)
  }

  /** hashString: 32-bit FNV-1a. */
  function Hash(key: bytes): nat {
    HashFrom(key, 2166136261) as nat
  }

  /** How many chunks there are once chunk c is in use. */
  function Needed(chunks: nat, c: nat): nat {
    if c < chunks then chunks else c + 1
  }

  class IndexedFieldStore {
    const chunkSize: nat
    const word: nat
    var keys: seq<seq<bytes>>
    var values: seq<seq<bytes>>
    var bitmasks: seq<nat>
    var fallbackIDs: map<bytes, nat>
    var fastPath: bool

    function Snap(): Snapshot
      reads this
    {
      Snapshot(chunkSize, keys, values, bitmasks, fallbackIDs)
    }

    ghost predicate Valid()
      reads this
    {
      word == WORD && StoreOk(Snap())
    }

    constructor (size: int)
      ensures Valid() && Contents(Snap()) == map[] && chunkSize == (if size <= 0 then 64 else size)
      ensures fallbackIDs == map[] && bitmasks == []
    {
      chunkSize := if size <= 0 then 64 else size;
      word := WORD;
      keys, values, bitmasks, fallbackIDs, fastPath := [], [], [], map[], false;
    }

    /** The key's ID, the next one when it has none yet. */
    method GetOrCreateFieldID(key: bytes) returns (id: nat)
      requires Valid()
      modifies this`fallbackIDs
      ensures Valid() && Contents(Snap()) == old(Contents(Snap()))
      ensures fallbackIDs == AssignId(old(fallbackIDs), key) && id == fallbackIDs[key]
    {
      AssignedMeans(Snap(), key);
      if key in fallbackIDs {
        return fallbackIDs[key];
      }
      id := |fallbackIDs|;
      fallbackIDs := fallbackIDs[key := id];
    }

    method GrowChunk()
      requires Valid()
      modifies this`keys, this`values, this`bitmasks
      ensures Valid() && Snap() == Grown(old(Snap())) && Contents(Snap()) == old(Contents(Snap()))
    {
      GrownMeans(Snap());
      keys := keys + [seq(chunkSize, _ => [])];
      values := values + [seq(chunkSize, _ => [])];
      bitmasks := bitmasks + [0];
    }

    /** What every Set does: the key gets an ID, and the map its value if that ID's place has a mask bit. */
    ghost predicate SetTo(key: bytes, value: bytes, before: Snapshot, after: Snapshot)
      requires StoreOk(before) && StoreOk(after)
    {
      && after.ids == AssignId(before.ids, key) && key in after.ids && after.size == before.size
      && Contents(after) == if Local(after.size, after.ids[key]) < WORD then Contents(before)[key := value]
                            else Contents(before)
    }

    /** The lock-free path: declines when the chunk does not exist yet, else stores and ORs the presence bit in. */
    method SetFastPath(key: bytes, value: bytes) returns (ok: bool)
      requires Valid()
      modifies this`fallbackIDs, this`keys, this`values, this`bitmasks
      ensures Valid() && fallbackIDs == AssignId(old(fallbackIDs), key) && key in fallbackIDs
      ensures if ok then SetTo(key, value, old(Snap()), Snap()) else Contents(Snap()) == old(Contents(Snap()))
      ensures |bitmasks| == |old(bitmasks)| && (ok <==> Chunk(chunkSize, fallbackIDs[key]) < |bitmasks|)
    {
      var id := GetOrCreateFieldID(key);
      PlaceByDivision(chunkSize, id);
      var c: nat, i: nat := id / chunkSize, id % chunkSize;
      if c >= |keys| {
        return false;
      }
      StoredMeans(Snap(), c, i, key, value);
      ghost var stored := Stored(Snap(), c, i, key, value);
      keys := keys[c := keys[c][i := key]];
      values := values[c := values[c][i := value]];
      TestBit(bitmasks[c], i);
      if BitAnd(bitmasks[c], OneShifted(i)) == 0 {
        bitmasks := bitmasks[c := BitOr(bitmasks[c], OneShifted(i))];
      } else {
        OrPresent(bitmasks[c], i);
      }
      assert Snap() == stored;
      return true;
    }

    method SetSlowPath(key: bytes, value: bytes)
      requires Valid()
      modifies this`fallbackIDs, this`keys, this`values, this`bitmasks
      ensures Valid() && SetTo(key, value, old(Snap()), Snap())
      ensures |bitmasks| == Needed(|old(bitmasks)|, Chunk(chunkSize, fallbackIDs[key]))
    {
      var id := GetOrCreateFieldID(key);
      PlaceByDivision(chunkSize, id);
      var c: nat, i: nat := id / chunkSize, id % chunkSize;
      while |keys| <= c
        modifies this`keys, this`values, this`bitmasks
        invariant Valid() && Contents(Snap()) == old(Contents(Snap()))
        invariant |bitmasks| == |old(bitmasks)| || |bitmasks| <= c + 1
        decreases c - |keys|
      {
        GrowChunk();
      }
      StoredMeans(Snap(), c, i, key, value);
      keys := keys[c := keys[c][i := key]];
      values := values[c := values[c][i := value]];
      bitmasks := bitmasks[c := BitOr(bitmasks[c], OneShifted(i))];
    }

    /**
     * Sets a field on either path. The map takes the value exactly when the ID's place in its chunk is below 64, so
     * always when the chunk size is at most 64; with larger chunks some fields never become visible.
     */
    method Set(key: bytes, value: bytes)
      requires Valid()
      modifies this`fallbackIDs, this`keys, this`values, this`bitmasks
      ensures Valid() && SetTo(key, value, old(Snap()), Snap())
      ensures chunkSize <= 64 ==> Contents(Snap()) == old(Contents(Snap()))[key := value]
      ensures |bitmasks| == Needed(|old(bitmasks)|, Chunk(chunkSize, fallbackIDs[key]))
    {
      if fastPath {
        var ok := SetFastPath(key, value);
        if ok {
          return;
        }
      }
      SetSlowPath(key, value);
    }

    /** Walks the chunks and, in each, the set bits from the lowest. */
    method Iterate() returns (visited: seq<(bytes, bytes)>)
      requires Valid()
      ensures Lists(visited, Contents(Snap()), fallbackIDs)
    {
      ListingIsMap(Snap(), word);
      visited := WalkChunks(Snap(), word);
    }

    /** The lock-free listing is the same walk, the locked one the test below. */
    method GetAll() returns (result: seq<(bytes, bytes)>)
      requires Valid()
      ensures Lists(result, Contents(Snap()), fallbackIDs)
    {
      if fastPath {
        result := Iterate();
      } else {
        result := GetAllSlowPath();
      }
    }

    /** The locked listing tests every place of every chunk instead. */
    method GetAllSlowPath() returns (result: seq<(bytes, bytes)>)
      requires Valid()
      ensures Lists(result, Contents(Snap()), fallbackIDs)
    {
      ListingIsMap(Snap(), word);
      result := TestChunks(Snap(), word);
    }

    /** Rewrites every live value in place. */
    method TransformValues(fn: (bytes, bytes) -> bytes)
      requires Valid()
      modifies this`values
      ensures Valid() && fallbackIDs == old(fallbackIDs)
      ensures Contents(Snap()) == map k | k in old(Contents(Snap())) :: fn(k, old(Contents(Snap()))[k])
    {
      StoreRowsFit(Snap(), word);
      ghost var before := Snap();
      values := RewriteChunks(Snap(), fn, word);
      RewrittenMeans(before, Snap(), fn);
    }

    /** Clears every mask and every slot; IDs stay assigned. */
    method Reset()
      requires Valid()
      modifies this`keys, this`values, this`bitmasks
      ensures Valid() && Contents(Snap()) == map[] && fallbackIDs == old(fallbackIDs)
    {
      ghost var before := Snap();
      for c := 0 to |bitmasks|
        modifies this`bitmasks
        invariant |bitmasks| == |before.masks| && forall d :: 0 <= d < c ==> bitmasks[d] == 0
      {
        bitmasks := bitmasks[c := 0];
      }
      for c := 0 to |keys|
        modifies this`keys, this`values
        invariant |keys| == |values| == |before.keys|
        invariant forall d :: 0 <= d < |keys| ==> |keys[d]| == |values[d]| == chunkSize
      {
        keys := keys[c := seq(chunkSize, _ => [])];
        values := values[c := seq(chunkSize, _ => [])];
      }
      ClearedMeans(before, Snap());
    }

    /** The number of set bits over all chunks is the number of live keys. */
    method Size() returns (total: nat)
      requires Valid()
      ensures total == |Contents(Snap())|
    {
      ListingIsMap(Snap(), word);
      total := CountChunks(Snap(), word);
    }

    /** Without a dictionary, Get looks in the place of the key's hash, not of its assigned ID. */
    method Get(key: bytes) returns (r: Option<bytes>)
      requires Valid()
      ensures r == GetAt(Snap(), Hash(key))
      ensures r == Lookup(Snap(), key) <==> HashAnswers(Snap(), key)
    {
      var h := Hash(key);
      GetAgrees(Snap(), key);
      PlaceByDivision(chunkSize, h);
      var c: nat, i: nat := h / chunkSize, h % chunkSize;
      if c >= |keys| {
        return None;
      }
      TestBit(bitmasks[c], i);
      NoHighBitsPast(bitmasks[c], i);
      if BitAnd(bitmasks[c], OneShifted(i)) == 0 {
        return None;
      }
      return Some(values[c][i]);
    }
  }

  lemma NoHighBitsPast(m: nat, i: nat)
    requires m < Pow2(WORD)
    ensures Bit(m, i) ==> i < WORD
  {
    if i >= WORD {
      NoHighBits(m, WORD, i);
    }
  }

  function GetAt(s: Snapshot, h: nat): Option<bytes>
    requires ShapeOk(s)
  {
    if Present(s, Chunk(s.size, h), Local(s.size, h)) then Some(s.values[Chunk(s.size, h)][Local(s.size, h)]) else None
  }

  lemma {:induction false} ChunkAtLeast(size: nat, id: nat, n: nat)
    requires size > 0 && id >= n * size
    ensures Chunk(size, id) >= n
    decreases n
  {
    if n > 0 {
      assert n * size == (n - 1) * size + size;
      assert (n - 1) * size >= 0;
      ChunkAtLeast(size, id - size, n - 1);
    }
  }

  /** The map's own lookup. */
  ghost function Lookup(s: Snapshot, key: bytes): Option<bytes>
    requires StoreOk(s)
  {
    if key in Contents(s) then Some(Contents(s)[key]) else None
  }

  /**
   * The slot of a key's hash answers for the key: for a live key its hash is its ID, or that slot happens to hold
   * the same value; for any other key that slot is empty.
   */
  predicate HashAnswers(s: Snapshot, key: bytes)
    requires ShapeOk(s)
  {
    var c, i := Chunk(s.size, Hash(key)), Local(s.size, Hash(key));
    if Live(s, key) then s.ids[key] == Hash(key) || (Present(s, c, i) && s.values[c][i] == ValueOf(s, key))
    else !Present(s, c, i)
  }

  /** Get agrees with the map exactly when the slot of the key's hash answers for the key. */
  lemma GetAgrees(s: Snapshot, key: bytes)
    requires StoreOk(s)
    ensures GetAt(s, Hash(key)) == Lookup(s, key) <==> HashAnswers(s, key)
  {
    LookupIsContents(s, key);
  }

  /** A key whose hash lies past the chunks in use is never found. */
  lemma GetMissesPastChunks(s: Snapshot, key: bytes)
    requires StoreOk(s) && Hash(key) >= |s.masks| * s.size
    ensures GetAt(s, Hash(key)) == None
  {
    ChunkAtLeast(s.size, Hash(key), |s.masks|);
  }

  lemma HashOfA()
    ensures Hash([0x61]) == 0xE40C292C
  {
    assert HashFrom([0x61], 2166136261) == HashFrom([], 0xE40C292C);
  }

  /** The run that shows it: a new store, "a" set to v. The map has "a", Get does not. */
  method SetThenGet(size: int, fast: bool, v: bytes) returns (store: IndexedFieldStore, r: Option<bytes>)
    requires size <= 0xE40C292C
    ensures store.Valid() && Contents(store.Snap()) == map[[0x61] := v] && r == None
  {
    var key: bytes := [0x61];
    store := new IndexedFieldStore(size);
    store.fastPath := fast;
    store.Set(key, v);
    HashOfA();
    GetMissesPastChunks(store.Snap(), key);
    r := store.Get(key);
  }

  // ---- The loops over chunks ----

  lemma RowsStep(s: Snapshot, width: nat, n: nat)
    requires RowsFit(s, width) && n < |s.masks|
    ensures Rows(s, width, n + 1) == Rows(s, width, n) + Row(s, width, n)
    ensures s.masks[n] == 0 ==> Rows(s, width, n + 1) == Rows(s, width, n)
    ensures |Row(s, width, n)| == |Ones(s.masks[n], 0, width)|
  {
    ZeroHasNoOnes(0, width);
    assert AllRows(s, width)[..n + 1][..n] == AllRows(s, width)[..n];
    assert Rows(s, width, n) + [] == Rows(s, width, n);
  }

  /** Skips empty masks and walks the set bits of the others. */
  method WalkChunks(s: Snapshot, width: nat) returns (visited: seq<(bytes, bytes)>)
    requires RowsFit(s, width)
    ensures visited == Rows(s, width, |s.masks|)
  {
    visited := [];
    for c := 0 to |s.masks|
      invariant visited == Rows(s, width, c)
    {
      RowsStep(s, width, c);
      if s.masks[c] == 0 {
        continue;
      }
      var row := WalkChunk(s, c, width);
      visited := visited + row;
    }
  }

  method WalkChunk(s: Snapshot, c: nat, width: nat) returns (row: seq<(bytes, bytes)>)
    requires RowsFit(s, width) && c < |s.masks|
    ensures row == Row(s, width, c)
  {
    var places := WalkBits(s.masks[c], width);
    row := Pairs(s.keys[c], s.values[c], places);
  }

  method TestChunks(s: Snapshot, width: nat) returns (result: seq<(bytes, bytes)>)
    requires RowsFit(s, width)
    ensures result == Rows(s, width, |s.masks|)
  {
    result := [];
    for c := 0 to |s.masks|
      invariant result == Rows(s, width, c)
    {
      RowsStep(s, width, c);
      var row := TestChunk(s, c, width);
      result := result + row;
    }
  }

  method TestChunk(s: Snapshot, c: nat, width: nat) returns (row: seq<(bytes, bytes)>)
    requires RowsFit(s, width) && c < |s.masks|
    ensures row == Row(s, width, c)
  {
    NoOnesPast(s, c, width);
    var places := TestPlaces(s.masks[c], s.size, width);
    row := Pairs(s.keys[c], s.values[c], places);
  }

  /** Tests each place below size with a shifted one. */
  method TestPlaces(mask: nat, size: nat, width: nat) returns (places: seq<nat>)
    requires mask < Pow2(WORD) && mask < Pow2(width) && Ones(mask, size, width) == []
    ensures places == Ones(mask, 0, width)
  {
    places := [];
    for i := 0 to size
      invariant places + Ones(mask, i, width) == Ones(mask, 0, width)
    {
      TestBit(mask, i);
      NoHighBitsPast(mask, i);
      OnesFrom(mask, i, width);
      if BitAnd(mask, OneShifted(i)) != 0 {
        Joined(places, i, Ones(mask, i + 1, width), Ones(mask, i, width));
        places := places + [i];
      }
    }
  }

  lemma CountStep(s: Snapshot, width: nat, n: nat)
    requires RowsFit(s, width) && n < |s.masks|
    ensures |Rows(s, width, n + 1)| == |Rows(s, width, n)| + OnesCount(s.masks[n])
  {
    RowsStep(s, width, n);
    CountIsLength(s.masks[n], width);
  }

  method CountChunks(s: Snapshot, width: nat) returns (total: nat)
    requires RowsFit(s, width)
    ensures total == |Rows(s, width, |s.masks|)|
  {
    total := 0;
    for c := 0 to |s.masks|
      invariant total == |Rows(s, width, c)|
    {
      CountStep(s, width, c);
      total := total + OnesCount(s.masks[c]);
    }
  }

  lemma OnesFrom(m: nat, i: nat, width: nat)
    requires m < Pow2(width)
    ensures Ones(m, i, width) == if Bit(m, i) then [i] + Ones(m, i + 1, width) else Ones(m, i + 1, width)
  {
    if i >= width {
      NoHighBits(m, width, i);
    }
  }

  lemma NoOnesPast(s: Snapshot, c: nat, width: nat)
    requires RowsFit(s, width) && c < |s.masks|
    ensures Ones(s.masks[c], s.size, width) == []
  {
    var m, all := s.masks[c], Ones(s.masks[c], 0, width);
    OnesAre(m, 0, width);
    forall k: nat | s.size <= k < width ensures !Bit(m, k) {
      if Bit(m, k) {
        PlaceFits(all, s.size, k);
      }
    }
    if s.size < width {
      OnesSkip(m, s.size, width, width);
    }
  }

  lemma PlaceFits(places: seq<nat>, size: nat, k: nat)
    requires PlacesFit(places, size) && k in places
    ensures k < size
  {
  }

  method RewriteChunks(s: Snapshot, fn: (bytes, bytes) -> bytes, width: nat) returns (values: seq<seq<bytes>>)
    requires RowsFit(s, width)
    ensures ShapeOk(s.(values := values)) && Rewrites(s, s.(values := values), fn)
  {
    values := s.values;
    for c := 0 to |s.masks|
      invariant |values| == |s.values| && forall d :: 0 <= d < |values| ==> |values[d]| == s.size
      invariant forall d: nat, i: nat :: d < c && i < s.size && Present(s, d, i) ==>
                  values[d][i] == fn(s.keys[d][i], s.values[d][i])
      invariant forall d :: c <= d < |values| ==> values[d] == s.values[d]
    {
      var row := RewriteChunk(s, c, fn, width);
      values := values[c := row];
    }
  }

  method RewriteChunk(s: Snapshot, c: nat, fn: (bytes, bytes) -> bytes, width: nat) returns (row: seq<bytes>)
    requires RowsFit(s, width) && c < |s.masks|
    ensures |row| == s.size
    ensures forall i: nat :: i < s.size && Present(s, c, i) ==> row[i] == fn(s.keys[c][i], s.values[c][i])
  {
    var places := WalkBits(s.masks[c], width);
    OnesAre(s.masks[c], 0, width);
    row := RewriteRow(s.keys[c], s.values[c], places, fn);
    forall i: nat | i < s.size && Present(s, c, i) ensures row[i] == fn(s.keys[c][i], s.values[c][i]) {
      if i >= width {
        NoHighBits(s.masks[c], width, i);
      }
      assert i in places;
    }
  }

  /** Applies fn at the given places of a row, in place. */
  method RewriteRow(keys: seq<bytes>, values: seq<bytes>, places: seq<nat>, fn: (bytes, bytes) -> bytes)
    returns (row: seq<bytes>)
    requires |keys| == |values| && PlacesFit(places, |keys|)
    requires forall a, b :: 0 <= a < b < |places| ==> places[a] < places[b]
    ensures |row| == |values|
    ensures forall k :: 0 <= k < |places| ==> row[places[k]] == fn(keys[places[k]], values[places[k]])
    ensures forall i :: 0 <= i < |row| && i !in places ==> row[i] == values[i]
  {
    row := values;
    for n := 0 to |places|
      invariant |row| == |values|
      invariant forall k :: 0 <= k < n ==> row[places[k]] == fn(keys[places[k]], values[places[k]])
      invariant forall k :: n <= k < |places| ==> row[places[k]] == values[places[k]]
      invariant forall i :: 0 <= i < |row| && i !in places ==> row[i] == values[i]
    {
      var i := places[n];
      row := row[i := fn(keys[i], row[i])];
    }
  }
}
