/** Joining sequences: concatenating a list of them, and regrouping sums. */
module Sequences {

  function Flatten<T>(parts: seq<seq<T>>): seq<T> {
    if parts == [] then [] else Flatten(parts[..|parts| - 1]) + parts[|parts| - 1]
  }

  lemma FlattenSnoc<T>(parts: seq<seq<T>>, part: seq<T>)
    ensures Flatten(parts + [part]) == Flatten(parts) + part
  {
    assert (parts + [part])[..|parts|] == parts;
  }

  lemma {:induction false} FlattenGrows<T>(parts: seq<seq<T>>, c: nat, n: nat)
    requires c <= n <= |parts|
    ensures Flatten(parts[..c]) <= Flatten(parts[..n])
    decreases n
  {
    if c < n {
      assert parts[..n][..n - 1] == parts[..n - 1];
      FlattenGrows(parts, c, n - 1);
    }
  }

  lemma Assoc<T>(a: seq<T>, b: seq<T>, c: seq<T>)
    ensures a + b + c == a + (b + c)
  {
  }

  lemma Assoc3<T>(a: seq<T>, b: seq<T>, c: seq<T>, d: seq<T>)
    ensures a + b + c + d == a + (b + c + d)
    ensures a + b + c + d == a + (b + (c + d))
  {
  }

  lemma Assoc4<T>(z: seq<T>, a: seq<T>, b: seq<T>, c: seq<T>, d: seq<T>)
    ensures z + a + b + c + d == z + (a + b + c + d)
  {
    Assoc3(z, a, b, c);
    Assoc(z, a + b + c, d);
  }
}
