/** Child-logger contexts: values that share backing arrays and may branch anywhere (core/context.go). */
module Context {
  import opened Sequences
  import opened Types
  import opened Json
  import opened Logging

  /** A Go slice: the first len cells of an array it may grow into up to cap. */
  datatype Slice<T> = Slice(a: array<T>, len: nat, cap: nat)

  ghost predicate SliceOk<T>(s: Slice<T>) {
    s.len <= s.cap <= s.a.Length
  }

  function View<T>(s: Slice<T>): seq<T>
    requires SliceOk(s)
    reads s.a
  {
    s.a[..s.len]
  }

  /** s[:len:len]: the same contents with no room left, so that the next append must move. */
  function Clamped<T>(s: Slice<T>): Slice<T> {
    s.(cap := s.len)
  }

  /** append: writes in place when the capacity allows, otherwise copies to a new array with some room to spare. */
  method Append<T>(s: Slice<T>, xs: seq<T>, spare: nat, filler: T) returns (r: Slice<T>)
    requires SliceOk(s)
    modifies if s.len + |xs| <= s.cap && xs != [] then {s.a} else {}
    ensures SliceOk(r) && View(r) == old(View(s)) + xs
    ensures r.a == s.a || fresh(r.a)
    ensures s.len + |xs| > s.cap ==> fresh(r.a)
  {
    if s.len + |xs| <= s.cap {
      if xs == [] {
        return s;
      }
      forall i | 0 <= i < |xs| {
        s.a[s.len + i] := xs[i];
      }
      return s.(len := s.len + |xs|);
    }
    var a := new T[s.len + |xs| + spare](_ => filler);
    forall i | 0 <= i < s.len {
      a[i] := s.a[i];
    }
    forall i | 0 <= i < |xs| {
      a[s.len + i] := xs[i];
    }
    return Slice(a, s.len + |xs|, a.Length);
  }

  /** A context: the fields bound so far and their rendering, each in its own slice. */
  datatype Context = Context(l: Logger, fields: Slice<TypedFieldData>, text: Slice<bv8>)

  ghost predicate SlicesOk(c: Context) {
    SliceOk(c.fields) && SliceOk(c.text)
  }

  /** The bytes are the rendering of the fields, of which there are at most 32. */
  ghost predicate ContextOk(c: Context)
    reads c.fields.a, c.text.a
  {
    SlicesOk(c) && BoundOk(View(c.fields), View(c.text))
  }

  /** A builder starting from the logger's bound context, in arrays of its own. */
  method With(l: Logger, bound: Slice<TypedFieldData>, boundBytes: Slice<bv8>) returns (c: Context)
    requires SliceOk(bound) && SliceOk(boundBytes) && BoundOk(View(bound), View(boundBytes))
    ensures ContextOk(c) && c.l == l && View(c.fields) == View(bound) && View(c.text) == View(boundBytes)
    ensures fresh(c.fields.a) && fresh(c.text.a)
  {
    var a := new TypedFieldData[bound.len](_ => NO_FIELD);
    var b := new bv8[boundBytes.len](_ => 0);
    c := Context(l, Slice(a, 0, 0), Slice(b, 0, 0));
    if bound.len > 0 {
      forall i | 0 <= i < bound.len {
        a[i] := bound.a[i];
      }
      forall i | 0 <= i < boundBytes.len {
        b[i] := boundBytes.a[i];
      }
      c := Context(l, Slice(a, bound.len, bound.len), Slice(b, boundBytes.len, boundBytes.len));
    }
    assert View(c.fields) == View(bound);
    assert bound.len == 0 ==> View(bound) == [];
    assert View(c.text) == View(boundBytes);
  }

  /** AppendField over a slice: the key prefix, then the value, each appended in turn. */
  method AppendMember(s: Slice<bv8>, f: TypedFieldData, spare: nat) returns (r: Slice<bv8>)
    requires SliceOk(s) && s.cap == s.len
    ensures SliceOk(r) && View(r) == old(View(s)) + FieldText(f) && fresh(r.a)
  {
    r := Append(s, KeyPrefix(f.keyDesc, f.key), spare, 0);
    r := Append(r, ValueText(f.val, f.value), spare, 0);
    Assoc(View(s), KeyPrefix(f.keyDesc, f.key), ValueText(f.val, f.value));
  }

  /**
   * Binds one field; past 32 it does nothing. It writes to no array that exists already, so no context, whatever it
   * shares with this one, can change.
   */
  method Add(c: Context, f: TypedFieldData, spare: nat) returns (r: Context)
    requires ContextOk(c)
    ensures ContextOk(r) && r.l == c.l
    ensures View(r.fields) == if |View(c.fields)| >= MAX_BOUND_FIELDS then View(c.fields) else View(c.fields) + [f]
    ensures r == c || (fresh(r.fields.a) && fresh(r.text.a))
  {
    if c.fields.len >= MAX_BOUND_FIELDS {
      return c;
    }
    var fields := Append(Clamped(c.fields), [f], spare, NO_FIELD);
    var text := AppendMember(Clamped(c.text), f, spare);
    FieldsTextSnoc(View(c.fields), f);
    r := Context(c.l, fields, text);
  }

  /** The child logger binds what the context holds. */
  method DeriveLogger(c: Context) returns (child: Logger)
    requires ContextOk(c) && LoggerOk(c.l)
    ensures LoggerOk(child) && child == c.l.(bound := View(c.fields), boundBytes := View(c.text))
  {
    child := c.l.(bound := c.fields.a[..c.fields.len], boundBytes := c.text.a[..c.text.len]);
  }

  // ---- Trees of derivations ----

  /** One derivation: from the context with this number, bind this field. */
  datatype Derivation = Derivation(parent: nat, f: TypedFieldData)

  /** The fields of context number k of a tree: its parent's, then its own while there is room. */
  function FieldsAt(root: seq<TypedFieldData>, tree: seq<Derivation>, k: nat): seq<TypedFieldData>
    requires k <= |tree| && forall i :: 0 <= i < |tree| ==> tree[i].parent <= i
  {
    if k == 0 then root
    else
      var parent := FieldsAt(root, tree, tree[k - 1].parent);
      if |parent| >= MAX_BOUND_FIELDS then parent else parent + [tree[k - 1].f]
  }

  /** The fields of every context of a tree, in order. */
  ghost predicate Branches(want: seq<seq<TypedFieldData>>, root: seq<TypedFieldData>, tree: seq<Derivation>)
    requires forall i :: 0 <= i < |tree| ==> tree[i].parent <= i
  {
    |want| <= |tree| + 1 && forall k :: 0 <= k < |want| ==> want[k] == FieldsAt(root, tree, k)
  }

  lemma NextBranch(want: seq<seq<TypedFieldData>>, root: seq<TypedFieldData>, tree: seq<Derivation>, n: nat)
    requires n < |tree| && |want| == n + 1 && forall i :: 0 <= i < |tree| ==> tree[i].parent <= i
    requires Branches(want, root, tree)
    ensures var parent := want[tree[n].parent];
            Branches(want + [if |parent| >= MAX_BOUND_FIELDS then parent else parent + [tree[n].f]], root, tree)
  {
  }

  ghost predicate Holds(c: Context, fields: seq<TypedFieldData>)
    reads c.fields.a, c.text.a
  {
    ContextOk(c) && View(c.fields) == fields
  }

  /**
   * Whatever the tree of derivations, and however often a context with spare capacity is branched from, at the end
   * every context still holds exactly its own branch's fields and their rendering.
   */
  method DeriveTree(root: Context, tree: seq<Derivation>, spare: nat) returns (contexts: seq<Context>)
    requires ContextOk(root) && forall i :: 0 <= i < |tree| ==> tree[i].parent <= i
    ensures |contexts| == |tree| + 1 && contexts[0] == root
    ensures forall k :: 0 <= k <= |tree| ==> Holds(contexts[k], FieldsAt(old(View(root.fields)), tree, k))
  {
    contexts := [root];
    ghost var fields := View(root.fields);
    ghost var want := [fields];
    for n := 0 to |tree|
      invariant |contexts| == |want| == n + 1 && contexts[0] == root
      invariant Branches(want, fields, tree)
      invariant forall k :: 0 <= k <= n ==> Holds(contexts[k], want[k])
    {
      var parent := tree[n].parent;
      NextBranch(want, fields, tree, n);
      var c := AddHeld(contexts[parent], want[parent], tree[n].f, spare);
      contexts := contexts + [c];
      want := want + [if |want[parent]| >= MAX_BOUND_FIELDS then want[parent] else want[parent] + [tree[n].f]];
    }
  }

  method AddHeld(c: Context, ghost fields: seq<TypedFieldData>, f: TypedFieldData, spare: nat) returns (r: Context)
    requires Holds(c, fields)
    ensures Holds(r, if |fields| >= MAX_BOUND_FIELDS then fields else fields + [f])
  {
    r := Add(c, f, spare);
  }
}
