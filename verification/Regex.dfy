/**
 * A regular-expression tree with leftmost-first (backtracking) meaning over runes, and the emptiness analysis
 * that selects the masker's short scan (masking/regex.go).
 */
module Regex {

  datatype Re =
    | NoMatch
    | EmptyMatch
    | Literal(runes: string)
    | CharClass(ranges: seq<(char, char)>)
    | AnyCharNotNL
    | AnyChar
    | BeginLine
    | EndLine
    | BeginText
    | EndText
    | WordBoundary
    | NoWordBoundary
    | Capture(sub: Re)
    | Star(sub: Re, greedy: bool)
    | Plus(sub: Re, greedy: bool)
    | Quest(sub: Re, greedy: bool)
    | Repeat(sub: Re, min: nat, max: int, greedy: bool)   // max is -1 for no bound
    | Concat(subs: seq<Re>)
    | Alternate(subs: seq<Re>)

  predicate InRanges(c: char, ranges: seq<(char, char)>) {
    exists k :: 0 <= k < |ranges| && ranges[k].0 <= c <= ranges[k].1
  }

  predicate IsWord(c: char) {
    'a' <= c <= 'z' || 'A' <= c <= 'Z' || '0' <= c <= '9' || c == '_'
  }

  predicate AtBoundary(s: string, i: nat)
    requires i <= |s|
  {
    (i > 0 && IsWord(s[i - 1])) != (i < |s| && IsWord(s[i]))
  }

  predicate MatchesAt(s: string, i: nat, runes: string)
    requires i <= |s|
  {
    i + |runes| <= |s| && s[i..i + |runes|] == runes
  }

  /** All positions lie in [i, |s|]. */
  predicate Within(js: seq<nat>, i: nat, n: nat) {
    forall k :: 0 <= k < |js| ==> i <= js[k] <= n
  }

  /**
   * Where a match of re starting at i can end, in order of preference. An assertion looks at most at one rune
   * before and one after its position.
   */
  function Ends(re: Re, s: string, i: nat): (r: seq<nat>)
    requires i <= |s|
    ensures Within(r, i, |s|)
    decreases re, 0, 0, 0, 0, 0
  {
    match re
    case NoMatch => []
    case EmptyMatch => [i]
    case Literal(runes) => if MatchesAt(s, i, runes) then [i + |runes|] else []
    case CharClass(ranges) => if i < |s| && InRanges(s[i], ranges) then [i + 1] else []
    case AnyCharNotNL => if i < |s| && s[i] != '\n' then [i + 1] else []
    case AnyChar => if i < |s| then [i + 1] else []
    case BeginLine => if i == 0 || s[i - 1] == '\n' then [i] else []
    case EndLine => if i == |s| || s[i] == '\n' then [i] else []
    case BeginText => if i == 0 then [i] else []
    case EndText => if i == |s| then [i] else []
    case WordBoundary => if AtBoundary(s, i) then [i] else []
    case NoWordBoundary => if !AtBoundary(s, i) then [i] else []
    case Capture(sub) => Ends(sub, s, i)
    case Star(sub, greedy) => RepeatEnds(sub, 0, -1, greedy, s, i)
    case Plus(sub, greedy) => RepeatEnds(sub, 1, -1, greedy, s, i)
    case Quest(sub, greedy) => RepeatEnds(sub, 0, 1, greedy, s, i)
    case Repeat(sub, min, max, greedy) =>
      RepeatEnds(sub, min, if max < 0 then -1 else if max < min then 0 else max - min, greedy, s, i)
    case Concat(subs) => ConcatEnds(subs, s, i)
    case Alternate(subs) => AlternateEnds(subs, s, i)
  }

  function ConcatEnds(subs: seq<Re>, s: string, i: nat): (r: seq<nat>)
    requires i <= |s|
    ensures Within(r, i, |s|)
    decreases subs, 1, 0, 0, 0, 0
  {
    if subs == [] then [i] else ConcatAfter(subs[1..], s, Ends(subs[0], s, i))
  }

  /** The rest of a concatenation after each way its head can end, in order. */
  function ConcatAfter(subs: seq<Re>, s: string, js: seq<nat>): (r: seq<nat>)
    requires Within(js, 0, |s|)
    ensures forall lo: nat {:trigger Within(js, lo, |s|)} :: Within(js, lo, |s|) ==> Within(r, lo, |s|)
    decreases subs, 2, |js|, 0, 0, 0
  {
    if js == [] then []
    else
      var first, rest := ConcatEnds(subs, s, js[0]), ConcatAfter(subs, s, js[1..]);
      assert forall lo: nat {:trigger Within(js, lo, |s|)} :: Within(js, lo, |s|) ==> Within(js[1..], lo, |s|);
      first + rest
  }

  function AlternateEnds(subs: seq<Re>, s: string, i: nat): (r: seq<nat>)
    requires i <= |s|
    ensures Within(r, i, |s|)
    decreases subs, 1, 0, 0, 0, 0
  {
    if subs == [] then [] else Ends(subs[0], s, i) + AlternateEnds(subs[1..], s, i)
  }

  function Least(more: int): nat {
    if more < 0 then 0 else more
  }

  /** The copies still to come once one more copy of sub has matched. */
  function Fewer(more: int): int {
    if more < 0 then -1 else if more == 0 then 0 else more - 1
  }

  /** min copies of sub, then up to more further ones (more is -1 for no bound), preferring more when greedy. */
  function RepeatEnds(sub: Re, min: nat, more: int, greedy: bool, s: string, i: nat): (r: seq<nat>)
    requires i <= |s|
    ensures Within(r, i, |s|)
    decreases sub, 1, min + Least(more), |s| - i, 1, 0
  {
    if min == 0 && more == 0 then [i]
    else
      var again := RepeatAfter(sub, min, more, greedy, s, i, Ends(sub, s, i));
      if min > 0 then again else if greedy then again + [i] else [i] + again
  }

  /** The repetition once a copy started at i has ended at j. */
  function RepeatOn(sub: Re, min: nat, more: int, greedy: bool, s: string, i: nat, j: nat): (r: seq<nat>)
    requires i <= j <= |s| && (min > 0 || more != 0)
    ensures Within(r, j, |s|)
    decreases sub, 1, min + Least(more), |s| - i, 0, 0
  {
    if min > 0 then RepeatEnds(sub, min - 1, more, greedy, s, j)
    else if more < 0 && j == i then [i]
    else RepeatEnds(sub, 0, Fewer(more), greedy, s, j)
  }

  /** The repetition after each way one copy can end; an unbounded loop leaves on a copy that consumed nothing. */
  function RepeatAfter(sub: Re, min: nat, more: int, greedy: bool, s: string, i: nat, js: seq<nat>): (r: seq<nat>)
    requires i <= |s| && Within(js, i, |s|) && (min > 0 || more != 0)
    ensures forall lo: nat {:trigger Within(js, lo, |s|)} :: Within(js, lo, |s|) ==> Within(r, lo, |s|)
    decreases sub, 1, min + Least(more), |s| - i, 0, |js| + 1
  {
    if js == [] then []
    else
      var first := RepeatOn(sub, min, more, greedy, s, i, js[0]);
      var rest := RepeatAfter(sub, min, more, greedy, s, i, js[1..]);
      assert forall lo: nat {:trigger Within(js, lo, |s|)} :: Within(js, lo, |s|) ==> Within(js[1..], lo, |s|);
      first + rest
  }

  // ---- The emptiness analysis ----

  /** Conservatively recognises zero-width possibilities. */
  predicate MayMatchEmpty(re: Re)
    decreases re, 0
  {
    match re
    case NoMatch => false
    case CharClass(_) => false
    case AnyCharNotNL => false
    case AnyChar => false
    case Literal(runes) => |runes| == 0
    case Capture(sub) => MayMatchEmpty(sub)
    case Plus(sub, _) => MayMatchEmpty(sub)
    case Concat(subs) => AllMayMatchEmpty(subs)
    case Alternate(subs) => AnyMayMatchEmpty(subs)
    case Repeat(sub, min, _, _) => min == 0 || MayMatchEmpty(sub)
    case _ => true
  }

  predicate AllMayMatchEmpty(subs: seq<Re>)
    decreases subs, 1
  {
    subs == [] || (MayMatchEmpty(subs[0]) && AllMayMatchEmpty(subs[1..]))
  }

  predicate AnyMayMatchEmpty(subs: seq<Re>)
    decreases subs, 1
  {
    subs != [] && (MayMatchEmpty(subs[0]) || AnyMayMatchEmpty(subs[1..]))
  }

  /** When the analysis says no, every match of the tree, on any input and in any context, consumes input. */
  lemma {:induction false} NeverEmpty(re: Re, s: string, i: nat)
    requires i <= |s| && !MayMatchEmpty(re)
    ensures Within(Ends(re, s, i), i + 1, |s|)
    decreases re, 0
  {
    match re
    case Literal(runes) =>
    case Capture(sub) => NeverEmpty(sub, s, i);
    case Plus(sub, greedy) => NeverEmpty(sub, s, i);
    case Repeat(sub, min, max, greedy) => NeverEmpty(sub, s, i);
    case Concat(subs) => ConcatNeverEmpty(subs, s, i);
    case Alternate(subs) => AlternateNeverEmpty(subs, s, i);
    case _ =>
  }

  lemma {:induction false} ConcatNeverEmpty(subs: seq<Re>, s: string, i: nat)
    requires i <= |s| && !AllMayMatchEmpty(subs)
    ensures Within(ConcatEnds(subs, s, i), i + 1, |s|)
    decreases subs, 1
  {
    var js := Ends(subs[0], s, i);
    if !MayMatchEmpty(subs[0]) {
      NeverEmpty(subs[0], s, i);
    } else {
      ConcatAfterNeverEmpty(subs[1..], s, js, i);
    }
  }

  lemma {:induction false} ConcatAfterNeverEmpty(subs: seq<Re>, s: string, js: seq<nat>, i: nat)
    requires i <= |s| && Within(js, i, |s|) && !AllMayMatchEmpty(subs)
    ensures Within(ConcatAfter(subs, s, js), i + 1, |s|)
    decreases subs, 2, |js|
  {
    if js != [] {
      ConcatNeverEmpty(subs, s, js[0]);
      ConcatAfterNeverEmpty(subs, s, js[1..], i);
    }
  }

  lemma {:induction false} AlternateNeverEmpty(subs: seq<Re>, s: string, i: nat)
    requires i <= |s| && !AnyMayMatchEmpty(subs)
    ensures Within(AlternateEnds(subs, s, i), i + 1, |s|)
    decreases subs, 1
  {
    if subs != [] {
      NeverEmpty(subs[0], s, i);
      AlternateNeverEmpty(subs[1..], s, i);
    }
  }

  // ---- Matching on a suffix ----

  function Shift(js: seq<nat>, k: nat): (r: seq<nat>)
    requires forall x :: 0 <= x < |js| ==> js[x] >= k
    ensures |r| == |js| && forall x :: 0 <= x < |js| ==> r[x] == js[x] - k
  {
    seq(|js|, x requires 0 <= x < |js| => js[x] - k)
  }

  lemma ShiftConcat(a: seq<nat>, b: seq<nat>, k: nat)
    requires forall x :: 0 <= x < |a| ==> a[x] >= k
    requires forall x :: 0 <= x < |b| ==> b[x] >= k
    ensures Shift(a + b, k) == Shift(a, k) + Shift(b, k)
  {
  }

  /**
   * Cutting the input before position i - 1 or earlier changes nothing but the offsets: an assertion at i sees at
   * most the rune before it, so one kept rune preserves every boundary.
   */
  lemma {:induction false} EndsOnSuffix(re: Re, s: string, k: nat, i: nat)
    requires k < i <= |s|
    ensures Ends(re, s[k..], i - k) == Shift(Ends(re, s, i), k)
    decreases re, 0, 0, 0, 0, 0
  {
    match re
    case Capture(sub) => EndsOnSuffix(sub, s, k, i);
    case Star(sub, greedy) => RepeatOnSuffix(sub, 0, -1, greedy, s, k, i);
    case Plus(sub, greedy) => RepeatOnSuffix(sub, 1, -1, greedy, s, k, i);
    case Quest(sub, greedy) => RepeatOnSuffix(sub, 0, 1, greedy, s, k, i);
    case Repeat(sub, min, max, greedy) =>
      RepeatOnSuffix(sub, min, if max < 0 then -1 else if max < min then 0 else max - min, greedy, s, k, i);
    case Concat(subs) => ConcatOnSuffix(subs, s, k, i);
    case Alternate(subs) => AlternateOnSuffix(subs, s, k, i);
    case Literal(runes) => LiteralOnSuffix(runes, s, k, i);
    case _ => LeafOnSuffix(re, s, k, i);
  }

  lemma LiteralOnSuffix(runes: string, s: string, k: nat, i: nat)
    requires k < i <= |s|
    ensures Ends(Literal(runes), s[k..], i - k) == Shift(Ends(Literal(runes), s, i), k)
  {
    if i + |runes| <= |s| {
      assert s[k..][i - k..i - k + |runes|] == s[i..i + |runes|];
    }
  }

  /** Classes and assertions read the runes around i, which the suffix has at the same places. */
  lemma LeafOnSuffix(re: Re, s: string, k: nat, i: nat)
    requires k < i <= |s| && !re.Literal? && !re.Capture? && !re.Concat? && !re.Alternate?
    requires !re.Star? && !re.Plus? && !re.Quest? && !re.Repeat?
    ensures Ends(re, s[k..], i - k) == Shift(Ends(re, s, i), k)
  {
    assert s[k..][i - k - 1] == s[i - 1] && (i < |s| ==> s[k..][i - k] == s[i]);
  }

  lemma {:induction false} ConcatOnSuffix(subs: seq<Re>, s: string, k: nat, i: nat)
    requires k < i <= |s|
    ensures ConcatEnds(subs, s[k..], i - k) == Shift(ConcatEnds(subs, s, i), k)
    decreases subs, 1, 0, 0, 0, 0
  {
    if subs != [] {
      EndsOnSuffix(subs[0], s, k, i);
      ConcatAfterOnSuffix(subs[1..], s, k, Ends(subs[0], s, i));
    }
  }

  lemma {:induction false} ConcatAfterOnSuffix(subs: seq<Re>, s: string, k: nat, js: seq<nat>)
    requires k <= |s| && Within(js, k + 1, |s|)
    ensures ConcatAfter(subs, s[k..], Shift(js, k)) == Shift(ConcatAfter(subs, s, js), k)
    decreases subs, 2, |js|, 0, 0, 0
  {
    if js != [] {
      ConcatOnSuffix(subs, s, k, js[0]);
      ConcatAfterOnSuffix(subs, s, k, js[1..]);
      assert Shift(js, k)[1..] == Shift(js[1..], k);
      ShiftConcat(ConcatEnds(subs, s, js[0]), ConcatAfter(subs, s, js[1..]), k);
    }
  }

  lemma {:induction false} AlternateOnSuffix(subs: seq<Re>, s: string, k: nat, i: nat)
    requires k < i <= |s|
    ensures AlternateEnds(subs, s[k..], i - k) == Shift(AlternateEnds(subs, s, i), k)
    decreases subs, 1, 0, 0, 0, 0
  {
    if subs != [] {
      EndsOnSuffix(subs[0], s, k, i);
      AlternateOnSuffix(subs[1..], s, k, i);
      ShiftConcat(Ends(subs[0], s, i), AlternateEnds(subs[1..], s, i), k);
    }
  }

  lemma {:induction false} RepeatOnSuffix(sub: Re, min: nat, more: int, greedy: bool, s: string, k: nat, i: nat)
    requires k < i <= |s|
    ensures RepeatEnds(sub, min, more, greedy, s[k..], i - k) == Shift(RepeatEnds(sub, min, more, greedy, s, i), k)
    decreases sub, 1, min + Least(more), |s| - i, 1, 0
  {
    if min > 0 || more != 0 {
      EndsOnSuffix(sub, s, k, i);
      RepeatAfterOnSuffix(sub, min, more, greedy, s, k, i, Ends(sub, s, i));
      var again := RepeatAfter(sub, min, more, greedy, s, i, Ends(sub, s, i));
      ShiftConcat(again, [i], k);
      ShiftConcat([i], again, k);
    }
  }

  lemma {:induction false} CopyOnSuffix(sub: Re, min: nat, more: int, greedy: bool, s: string, k: nat, i: nat, j: nat)
    requires k < i <= j <= |s| && (min > 0 || more != 0)
    ensures RepeatOn(sub, min, more, greedy, s[k..], i - k, j - k)
         == Shift(RepeatOn(sub, min, more, greedy, s, i, j), k)
    decreases sub, 1, min + Least(more), |s| - i, 0, 0
  {
    if min > 0 {
      RepeatOnSuffix(sub, min - 1, more, greedy, s, k, j);
    } else if !(more < 0 && j == i) {
      RepeatOnSuffix(sub, 0, Fewer(more), greedy, s, k, j);
    }
  }

  lemma {:induction false} RepeatAfterOnSuffix(sub: Re, min: nat, more: int, greedy: bool, s: string, k: nat, i: nat,
                                               js: seq<nat>)
    requires k < i <= |s| && Within(js, i, |s|) && (min > 0 || more != 0)
    ensures RepeatAfter(sub, min, more, greedy, s[k..], i - k, Shift(js, k))
         == Shift(RepeatAfter(sub, min, more, greedy, s, i, js), k)
    decreases sub, 1, min + Least(more), |s| - i, 0, |js| + 1
  {
    if js != [] {
      CopyOnSuffix(sub, min, more, greedy, s, k, i, js[0]);
      RepeatAfterOnSuffix(sub, min, more, greedy, s, k, i, js[1..]);
      assert Shift(js, k)[1..] == Shift(js[1..], k);
      ShiftConcat(RepeatOn(sub, min, more, greedy, s, i, js[0]), RepeatAfter(sub, min, more, greedy, s, i, js[1..]), k);
    }
  }
}
