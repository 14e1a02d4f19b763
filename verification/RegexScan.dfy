/** Searching: the full match list, and the masker's at-most-three-scan shortcut that must agree with it. */
module RegexScan {
  import opened Bytes
  import opened Regex

  type Span = (nat, nat)

  /** The leftmost match at or after from, with its preferred end. */
  function FindFrom(re: Re, s: string, from: nat): (r: Option<Span>)
    requires from <= |s|
    ensures r.Some? ==> from <= r.value.0 <= r.value.1 <= |s|
    ensures r.Some? ==> Ends(re, s, r.value.0) != [] && Ends(re, s, r.value.0)[0] == r.value.1
    ensures r.Some? ==> forall i :: from <= i < r.value.0 ==> Ends(re, s, i) == []
    ensures r.None? ==> forall i :: from <= i <= |s| ==> Ends(re, s, i) == []
    decreases |s| - from
  {
    if Ends(re, s, from) != [] then Some((from, Ends(re, s, from)[0]))
    else if from < |s| then FindFrom(re, s, from + 1)
    else None
  }

  /**
   * The match list of FindAllStringIndex from position pos, where the previous match ended at prevEnd (-1 for
   * none): an empty match right after a match is not reported, and a match that does not advance moves on by one.
   */
  function FindAllFrom(re: Re, s: string, pos: nat, prevEnd: int): seq<Span>
    decreases |s| + 1 - pos
  {
    if pos > |s| then []
    else
      match FindFrom(re, s, pos)
      case None => []
      case Some(m) =>
        var accepted := if m.1 == pos && m.0 == prevEnd then [] else [m];
        accepted + FindAllFrom(re, s, if m.1 == pos then pos + 1 else m.1, m.1)
  }

  function FindAll(re: Re, s: string): seq<Span> {
    FindAllFrom(re, s, 0, -1)
  }

  /** The pattern wrapped with a lazy anchored prefix. */
  function PrefixOf(re: Re): Re {
    Concat([BeginText] + ([Star(AnyChar, false)] + [re]))
  }

  /** The pattern wrapped to follow any one rune. */
  function ContextOf(re: Re): Re {
    Concat([AnyChar] + [re])
  }

  /** FindString: the text of the leftmost match, empty when there is none. */
  function FindString(re: Re, s: string): string {
    match FindFrom(re, s, 0)
    case None => ""
    case Some(m) => s[m.0..m.1]
  }

  /**
   * The shortcut scan. Count 0 or 1 is the complete answer without building the list; count 2 asks for it. It
   * takes the match length from one scan, its end from the prefix pattern, and looks past it with one kept rune.
   */
  function Singleton(re: Re, s: string): (int, int, nat)
    requires !MayMatchEmpty(re)
  {
    var m := FindString(re, s);
    if m == "" then (0, 0, 0)
    else if |m| == |s| then (0, |s|, 1)
    else
      var end := |FindString(PrefixOf(re), s)|;
      var start := end - |m|;
      if end == |s| then (start, end, 1)
      else
        var before := if end > 0 then 1 else 0;
        if FindFrom(ContextOf(re), s[end - before..], 0).Some? then (0, 0, 2) else (start, end, 1)
  }

  // ---- The prefix pattern picks the same match ----

  function UpTo(i: nat, n: nat): seq<nat>
    requires i <= n
    decreases n - i
  {
    if i == n then [i] else [i] + UpTo(i + 1, n)
  }

  lemma {:induction false} UpToWithin(i: nat, n: nat)
    requires i <= n
    ensures Within(UpTo(i, n), i, n)
    decreases n - i
  {
    if i < n {
      UpToWithin(i + 1, n);
    }
  }

  lemma {:induction false} LazyDots(s: string, i: nat)
    requires i <= |s|
    ensures RepeatEnds(AnyChar, 0, -1, false, s, i) == UpTo(i, |s|)
    decreases |s| - i
  {
    var js := Ends(AnyChar, s, i);
    if i < |s| {
      LazyDots(s, i + 1);
      assert js == [i + 1] && js[1..] == [];
      assert RepeatAfter(AnyChar, 0, -1, false, s, i, []) == [];
      assert RepeatAfter(AnyChar, 0, -1, false, s, i, js) == RepeatOn(AnyChar, 0, -1, false, s, i, i + 1) + [];
    } else {
      assert js == [];
    }
  }

  lemma {:induction false} ConcatNil(s: string, js: seq<nat>)
    requires Within(js, 0, |s|)
    ensures ConcatAfter([], s, js) == js
  {
    if js != [] {
      ConcatNil(s, js[1..]);
      assert ConcatEnds([], s, js[0]) == [js[0]];
    }
  }

  lemma ConcatOne(re: Re, s: string, i: nat)
    requires i <= |s|
    ensures ConcatEnds([re], s, i) == Ends(re, s, i)
  {
    ConcatNil(s, Ends(re, s, i));
    assert [re][1..] == [];
  }

  lemma ConcatCons(first: Re, rest: seq<Re>, s: string, i: nat)
    requires i <= |s|
    ensures ConcatEnds([first] + rest, s, i) == ConcatAfter(rest, s, Ends(first, s, i))
  {
    assert ([first] + rest)[1..] == rest && ([first] + rest)[0] == first;
  }

  lemma ConcatAfterOne(subs: seq<Re>, s: string, j: nat)
    requires j <= |s|
    ensures ConcatAfter(subs, s, [j]) == ConcatEnds(subs, s, j)
    ensures ConcatAfter(subs, s, []) == []
  {
    assert [j][1..] == [];
    assert ConcatAfter(subs, s, [j]) == ConcatEnds(subs, s, j) + ConcatAfter(subs, s, []);
  }

  predicate FirstIs(r: seq<nat>, found: Option<Span>) {
    match found
    case None => r == []
    case Some(m) => r != [] && r[0] == m.1
  }

  /** Trying starts one by one, the first result of the tail is the leftmost match's preferred end. */
  lemma {:induction false} FirstOfStarts(re: Re, s: string, i: nat)
    requires i <= |s|
    ensures Within(UpTo(i, |s|), i, |s|)
    ensures FirstIs(ConcatAfter([re], s, UpTo(i, |s|)), FindFrom(re, s, i))
    decreases |s| - i
  {
    UpToWithin(i, |s|);
    ConcatOne(re, s, i);
    if i < |s| {
      FirstOfStarts(re, s, i + 1);
      assert UpTo(i, |s|)[1..] == UpTo(i + 1, |s|);
      assert ConcatAfter([re], s, UpTo(i, |s|)) == ConcatEnds([re], s, i) + ConcatAfter([re], s, UpTo(i + 1, |s|));
    } else {
      ConcatAfterOne([re], s, i);
    }
  }

  lemma StarDots(s: string)
    ensures Ends(Star(AnyChar, false), s, 0) == UpTo(0, |s|)
  {
    LazyDots(s, 0);
  }

  lemma PrefixEndsAtStart(re: Re, s: string)
    ensures Within(UpTo(0, |s|), 0, |s|)
    ensures Ends(PrefixOf(re), s, 0) == ConcatAfter([re], s, UpTo(0, |s|))
  {
    UpToWithin(0, |s|);
    StarDots(s);
    var rest := [Star(AnyChar, false)] + [re];
    ConcatCons(Star(AnyChar, false), [re], s, 0);
    ConcatAfterOne(rest, s, 0);
    AnchoredEnds(rest, s);
  }

  lemma AnchoredEnds(rest: seq<Re>, s: string)
    ensures Ends(Concat([BeginText] + rest), s, 0) == ConcatEnds(rest, s, 0)
  {
    ConcatCons(BeginText, rest, s, 0);
    ConcatAfterOne(rest, s, 0);
    assert Ends(BeginText, s, 0) == [0];
  }

  lemma PrefixOnlyAtStart(re: Re, s: string, i: nat)
    requires 0 < i <= |s|
    ensures Ends(PrefixOf(re), s, i) == []
  {
    var rest := [Star(AnyChar, false)] + [re];
    ConcatCons(BeginText, rest, s, i);
    ConcatAfterOne(rest, s, i);
  }

  lemma {:induction false} NoLaterPrefix(re: Re, s: string, i: nat)
    requires 0 < i <= |s|
    ensures FindFrom(PrefixOf(re), s, i) == None
    decreases |s| - i
  {
    PrefixOnlyAtStart(re, s, i);
    if i < |s| {
      NoLaterPrefix(re, s, i + 1);
    }
  }

  /** The prefix pattern's match is the input up to the end of the leftmost-first match. */
  lemma PrefixFindsSameEnd(re: Re, s: string)
    requires FindFrom(re, s, 0).Some?
    ensures FindString(PrefixOf(re), s) == s[..FindFrom(re, s, 0).value.1]
  {
    PrefixEndsAtStart(re, s);
    FirstOfStarts(re, s, 0);
  }

  // ---- The context pattern sees every later match ----

  lemma ContextEnds(re: Re, s: string, i: nat)
    requires i < |s|
    ensures Ends(ContextOf(re), s, i) == Ends(re, s, i + 1)
  {
    ConcatCons(AnyChar, [re], s, i);
    ConcatAfterOne([re], s, i + 1);
    ConcatOne(re, s, i + 1);
  }

  lemma ContextAtEnd(re: Re, s: string)
    ensures Ends(ContextOf(re), s, |s|) == []
  {
    ConcatCons(AnyChar, [re], s, |s|);
    ConcatAfterOne([re], s, |s|);
  }

  /** Looking past a match with its last rune kept finds a match exactly when one starts at or after its end. */
  lemma ContextFindsLater(re: Re, s: string, end: nat)
    requires 0 < end <= |s|
    ensures FindFrom(ContextOf(re), s[end - 1..], 0).Some? <==> FindFrom(re, s, end).Some?
  {
    var k := end - 1;
    var t := s[k..];
    if FindFrom(re, s, end).Some? {
      var p := FindFrom(re, s, end).value.0;
      EndsOnSuffix(re, s, k, p);
      ContextEnds(re, t, p - end);
    }
    if FindFrom(ContextOf(re), t, 0).Some? {
      var j := FindFrom(ContextOf(re), t, 0).value.0;
      if j == |t| {
        ContextAtEnd(re, t);
      } else {
        ContextEnds(re, t, j);
        EndsOnSuffix(re, s, k, end + j);
      }
    }
  }

  // ---- The shortcut agrees with the full list ----

  lemma FindConsumes(re: Re, s: string, from: nat)
    requires from <= |s| && !MayMatchEmpty(re)
    ensures FindFrom(re, s, from).Some? ==> FindFrom(re, s, from).value.0 < FindFrom(re, s, from).value.1
  {
    var m := FindFrom(re, s, from);
    if m.Some? {
      NeverEmpty(re, s, m.value.0);
      assert Ends(re, s, m.value.0)[0] == m.value.1;
    }
  }

  /** For a pattern that always consumes: the list is the first match, then the matches from its end. */
  lemma FindAllHead(re: Re, s: string, pos: nat, prevEnd: int)
    requires pos <= |s| && !MayMatchEmpty(re)
    ensures FindFrom(re, s, pos).None? ==> FindAllFrom(re, s, pos, prevEnd) == []
    ensures FindFrom(re, s, pos).Some? ==>
              var m := FindFrom(re, s, pos).value;
              pos < m.1 && FindAllFrom(re, s, pos, prevEnd) == [m] + FindAllFrom(re, s, m.1, m.1)
  {
    FindConsumes(re, s, pos);
  }

  /** How many matches a consuming pattern has, by two searches. */
  lemma MatchCount(re: Re, s: string)
    requires !MayMatchEmpty(re)
    ensures var all := FindAll(re, s);
            match FindFrom(re, s, 0)
            case None => all == []
            case Some(m) => 0 < m.1 && m.0 < m.1 && all != [] && all[0] == m
                            && (|all| == 1 <==> FindFrom(re, s, m.1).None?)
  {
    FindConsumes(re, s, 0);
    FindAllHead(re, s, 0, -1);
    if FindFrom(re, s, 0).Some? {
      var m := FindFrom(re, s, 0).value;
      FindAllHead(re, s, m.1, m.1);
    }
  }

  lemma SingletonOf(re: Re, s: string, m: Span)
    requires !MayMatchEmpty(re)
    requires m.0 < m.1 <= |s| && FindString(re, s) == s[m.0..m.1]
    requires FindString(PrefixOf(re), s) == s[..m.1]
    requires FindFrom(ContextOf(re), s[m.1 - 1..], 0).Some? <==> FindFrom(re, s, m.1).Some?
    requires m.1 == |s| ==> FindFrom(re, s, m.1).None?
    ensures Singleton(re, s) == if FindFrom(re, s, m.1).Some? then (0, 0, 2) else (m.0, m.1, 1)
  {
    var found := FindString(re, s);
    assert |found| == m.1 - m.0 && found != "";
    if |found| == |s| {
      assert Singleton(re, s) == (0, |s|, 1);
    } else {
      assert |FindString(PrefixOf(re), s)| == m.1;
    }
  }

  /** What the shortcut computes, in terms of the same two searches. */
  lemma SingletonValue(re: Re, s: string)
    requires !MayMatchEmpty(re)
    ensures match FindFrom(re, s, 0)
            case None => Singleton(re, s) == (0, 0, 0)
            case Some(m) =>
              && m.0 < m.1
              && Singleton(re, s) == if FindFrom(re, s, m.1).Some? then (0, 0, 2) else (m.0, m.1, 1)
  {
    FindConsumes(re, s, 0);
    if FindFrom(re, s, 0).Some? {
      var m := FindFrom(re, s, 0).value;
      FindConsumes(re, s, m.1);
      PrefixFindsSameEnd(re, s);
      ContextFindsLater(re, s, m.1);
      SingletonOf(re, s, m);
    }
  }

  /**
   * For a pattern the analysis clears, the shortcut's count is 0, 1 or 2 exactly as the full leftmost-first list
   * has no, one or more matches, and the span it gives with count 1 is that one match.
   */
  lemma SingletonAgrees(re: Re, s: string)
    requires !MayMatchEmpty(re)
    ensures var (start, end, count) := Singleton(re, s);
            var all := FindAll(re, s);
            && (count == 0 <==> |all| == 0)
            && (count == 1 <==> |all| == 1)
            && (count == 2 <==> |all| >= 2)
            && (count == 1 ==> all[0].0 == start && all[0].1 == end)
  {
    MatchCount(re, s);
    SingletonValue(re, s);
  }
}
