/** The masker's string rewrite: collect every rule's matches, sort, merge in place, splice (masking/regex.go). */
module Masking {
  import opened Bytes
  import opened Sequences
  import opened Regex
  import opened RegexScan

  /** A rule. compiled tells whether its regexp exists; wrapped, whether the two helper patterns do. */
  datatype Rule = Rule(ast: Re, compiled: bool, wrapped: bool, replacement: string)

  datatype Match = Match(start: nat, end: nat, replacement: string)

  /** A rule gets the short scan only when the analysis clears it and both wrappers compile. */
  function NewRegexRule(ast: Re, compiles: bool, wrappersCompile: bool, replacement: string): (r: Option<Rule>)
    ensures r.Some? <==> compiles
    ensures r.Some? ==> RuleOk(r.value)
  {
    if !compiles then None
    else Some(Rule(ast, true, !MayMatchEmpty(ast) && wrappersCompile, replacement))
  }

  predicate RuleOk(r: Rule) {
    r.wrapped ==> !MayMatchEmpty(r.ast)
  }

  predicate RulesOk(rules: seq<Rule>) {
    forall k :: 0 <= k < |rules| ==> RuleOk(rules[k])
  }

  function Tagged(spans: seq<Span>, replacement: string): seq<Match> {
    seq(|spans|, k requires 0 <= k < |spans| => Match(spans[k].0, spans[k].1, replacement))
  }

  /** Every match of every rule against the original input, in rule order. */
  function RawMatches(rules: seq<Rule>, s: string): seq<Match> {
    if rules == [] then []
    else
      RawMatches(rules[..|rules| - 1], s)
      + (var r := rules[|rules| - 1]; if r.compiled then Tagged(FindAll(r.ast, s), r.replacement) else [])
  }

  predicate SpansOk(ms: seq<Match>, n: nat) {
    forall k :: 0 <= k < |ms| ==> ms[k].start <= ms[k].end <= n
  }

  lemma {:induction false} FindAllSpans(re: Re, s: string, pos: nat, prevEnd: int)
    ensures forall k :: 0 <= k < |FindAllFrom(re, s, pos, prevEnd)| ==>
              FindAllFrom(re, s, pos, prevEnd)[k].0 <= FindAllFrom(re, s, pos, prevEnd)[k].1 <= |s|
    decreases |s| + 1 - pos
  {
    if pos <= |s| && FindFrom(re, s, pos).Some? {
      var m := FindFrom(re, s, pos).value;
      FindAllSpans(re, s, if m.1 == pos then pos + 1 else m.1, m.1);
    }
  }

  lemma {:induction false} RawSpans(rules: seq<Rule>, s: string)
    ensures SpansOk(RawMatches(rules, s), |s|)
  {
    if rules != [] {
      RawSpans(rules[..|rules| - 1], s);
      FindAllSpans(rules[|rules| - 1].ast, s, 0, -1);
    }
  }

  // ---- What masking means, on the raw matches ----

  /** Some match covers position k. */
  predicate Covered(ms: seq<Match>, k: nat) {
    exists j :: 0 <= j < |ms| && ms[j].start <= k < ms[j].end
  }

  /** Some match that started before k is still open at k. */
  predicate Open(ms: seq<Match>, k: nat) {
    exists j :: 0 <= j < |ms| && ms[j].start < k < ms[j].end
  }

  /** The matches starting at k, in order. */
  function StartingAt(ms: seq<Match>, k: nat): seq<Match> {
    if ms == [] then []
    else (if ms[0].start == k then [ms[0]] else []) + StartingAt(ms[1..], k)
  }

  /** The replacements printed for matches that start together: up to the first one that consumes input. */
  function Printed(ms: seq<Match>): string {
    if ms == [] then ""
    else ms[0].replacement + (if ms[0].end > ms[0].start then "" else Printed(ms[1..]))
  }

  /** What is printed at position k, before and in place of its rune. */
  function Emit(s: string, ms: seq<Match>, k: nat): string {
    (if Open(ms, k) then "" else Printed(StartingAt(ms, k)))
    + (if k < |s| && !Covered(ms, k) then [s[k]] else "")
  }

  /** The pieces printed at the positions 0 to |s|. */
  function Parts(s: string, ms: seq<Match>): seq<string> {
    seq(|s| + 1, k requires 0 <= k <= |s| => Emit(s, ms, k))
  }

  function JoinFrom(parts: seq<string>, k: nat): string
    decreases |parts| - k
  {
    if k >= |parts| then "" else parts[k] + JoinFrom(parts, k + 1)
  }

  /**
   * The masked text, position by position: a rune is kept exactly when no match covers it, and a replacement is
   * printed where a match starts while no earlier match is still open.
   */
  function MaskedFrom(s: string, ms: seq<Match>, k: nat): string {
    JoinFrom(Parts(s, ms), k)
  }

  lemma {:induction false} JoinSame(a: seq<string>, b: seq<string>, k: nat)
    requires |a| == |b| && forall p :: k <= p < |a| ==> a[p] == b[p]
    ensures JoinFrom(a, k) == JoinFrom(b, k)
    decreases |a| - k
  {
    if k < |a| {
      JoinSame(a, b, k + 1);
    }
  }

  lemma {:induction false} JoinSilent(parts: seq<string>, lo: nat, hi: nat)
    requires lo <= hi <= |parts| && forall p :: lo <= p < hi ==> parts[p] == ""
    ensures JoinFrom(parts, lo) == JoinFrom(parts, hi)
    decreases hi - lo
  {
    if lo < hi {
      JoinSilent(parts, lo + 1, hi);
    }
  }

  lemma {:induction false} JoinKept(parts: seq<string>, s: string, lo: nat, hi: nat)
    requires lo <= hi <= |s| && |s| < |parts| && forall p :: lo <= p < hi ==> parts[p] == [s[p]]
    ensures JoinFrom(parts, lo) == s[lo..hi] + JoinFrom(parts, hi)
    decreases hi - lo
  {
    if lo < hi {
      JoinKept(parts, s, lo + 1, hi);
      assert s[lo..hi] == [s[lo]] + s[lo + 1..hi];
      Assoc([s[lo]], s[lo + 1..hi], JoinFrom(parts, hi));
    } else {
      assert s[lo..hi] == "";
    }
  }

  lemma SameEmits(s: string, a: seq<Match>, b: seq<Match>, k: nat)
    requires forall p: nat :: k <= p <= |s| ==> Emit(s, a, p) == Emit(s, b, p)
    ensures MaskedFrom(s, a, k) == MaskedFrom(s, b, k)
  {
    JoinSame(Parts(s, a), Parts(s, b), k);
  }

  // ---- Stable sort by start ----

  predicate Sorted(ms: seq<Match>) {
    forall i, j :: 0 <= i < j < |ms| ==> ms[i].start <= ms[j].start
  }

  /** Inserts m after every match that starts no later. */
  function InsertLast(ms: seq<Match>, m: Match): seq<Match> {
    if ms == [] || ms[|ms| - 1].start <= m.start then ms + [m]
    else InsertLast(ms[..|ms| - 1], m) + [ms[|ms| - 1]]
  }

  /** slices.SortStableFunc by start. */
  function StableSort(ms: seq<Match>): seq<Match> {
    if ms == [] then [] else InsertLast(StableSort(ms[..|ms| - 1]), ms[|ms| - 1])
  }

  lemma {:induction false} InsertLastHolds(ms: seq<Match>, m: Match)
    ensures multiset(InsertLast(ms, m)) == multiset(ms) + multiset{m}
  {
    if ms != [] && ms[|ms| - 1].start > m.start {
      InsertLastHolds(ms[..|ms| - 1], m);
      assert ms == ms[..|ms| - 1] + [ms[|ms| - 1]];
    }
  }

  lemma InsertLastBelow(ms: seq<Match>, m: Match, bound: nat)
    requires m.start <= bound && forall i :: 0 <= i < |ms| ==> ms[i].start <= bound
    ensures forall i :: 0 <= i < |InsertLast(ms, m)| ==> InsertLast(ms, m)[i].start <= bound
  {
    InsertLastHolds(ms, m);
    var r := InsertLast(ms, m);
    forall i | 0 <= i < |r| ensures r[i].start <= bound {
      assert r[i] in multiset(r);
      assert r[i] == m || r[i] in ms;
    }
  }

  lemma {:induction false} InsertLastOk(ms: seq<Match>, m: Match)
    requires Sorted(ms)
    ensures Sorted(InsertLast(ms, m))
  {
    if ms != [] && ms[|ms| - 1].start > m.start {
      InsertLastOk(ms[..|ms| - 1], m);
      InsertLastBelow(ms[..|ms| - 1], m, ms[|ms| - 1].start);
    }
  }

  /** The sort only reorders, and orders by start. */
  lemma {:induction false} StableSortOk(ms: seq<Match>)
    ensures Sorted(StableSort(ms)) && multiset(StableSort(ms)) == multiset(ms)
  {
    if ms != [] {
      StableSortOk(ms[..|ms| - 1]);
      InsertLastOk(StableSort(ms[..|ms| - 1]), ms[|ms| - 1]);
      InsertLastHolds(StableSort(ms[..|ms| - 1]), ms[|ms| - 1]);
      assert ms == ms[..|ms| - 1] + [ms[|ms| - 1]];
    }
  }

  lemma {:induction false} StartingAtConcat(a: seq<Match>, b: seq<Match>, k: nat)
    ensures StartingAt(a + b, k) == StartingAt(a, k) + StartingAt(b, k)
  {
    if a == [] {
      assert a + b == b;
    } else {
      assert (a + b)[1..] == a[1..] + b;
      StartingAtConcat(a[1..], b, k);
      Assoc(if a[0].start == k then [a[0]] else [], StartingAt(a[1..], k), StartingAt(b, k));
    }
  }

  lemma {:induction false} InsertLastStable(ms: seq<Match>, m: Match, k: nat)
    ensures StartingAt(InsertLast(ms, m), k) == StartingAt(ms + [m], k)
  {
    if ms != [] && ms[|ms| - 1].start > m.start {
      var front, last := ms[..|ms| - 1], ms[|ms| - 1];
      InsertLastStable(front, m, k);
      StartingAtConcat(InsertLast(front, m), [last], k);
      StartingAtConcat(front, [m], k);
      StartingAtConcat(front, [last], k);
      StartingAtConcat(front + [last], [m], k);
      assert ms == front + [last];
      assert StartingAt([m], k) == [] || StartingAt([last], k) == [];
    }
  }

  /** Ties keep rule order: the matches starting at any position are listed as they were. */
  lemma {:induction false} StableSortStable(ms: seq<Match>, k: nat)
    ensures StartingAt(StableSort(ms), k) == StartingAt(ms, k)
  {
    if ms != [] {
      var front, last := ms[..|ms| - 1], ms[|ms| - 1];
      StableSortStable(front, k);
      InsertLastStable(StableSort(front), last, k);
      StartingAtConcat(StableSort(front), [last], k);
      StartingAtConcat(front, [last], k);
      assert ms == front + [last];
    }
  }

  lemma SameElements(a: seq<Match>, b: seq<Match>, k: nat)
    requires multiset(a) == multiset(b)
    ensures Covered(a, k) ==> Covered(b, k)
    ensures Open(a, k) ==> Open(b, k)
  {
    if Covered(a, k) {
      var j :| 0 <= j < |a| && a[j].start <= k < a[j].end;
      assert a[j] in multiset(b);
    }
    if Open(a, k) {
      var j :| 0 <= j < |a| && a[j].start < k < a[j].end;
      assert a[j] in multiset(b);
    }
  }

  lemma SortKeepsMeaning(s: string, ms: seq<Match>)
    ensures MaskedFrom(s, StableSort(ms), 0) == MaskedFrom(s, ms, 0)
  {
    StableSortOk(ms);
    forall p: nat | 0 <= p <= |s| ensures Emit(s, StableSort(ms), p) == Emit(s, ms, p) {
      StableSortStable(ms, p);
      SameElements(ms, StableSort(ms), p);
      SameElements(StableSort(ms), ms, p);
    }
    SameEmits(s, StableSort(ms), ms, 0);
  }

  // ---- Merging ----

  function Extend(m: Match, other: Match): Match {
    if other.end > m.end then m.(end := other.end) else m
  }

  /** The runs of a sorted list: a match absorbs the following ones that start before it ends. */
  function MergeRuns(ms: seq<Match>): seq<Match>
    decreases |ms|
  {
    if |ms| < 2 then ms
    else if ms[1].start < ms[0].end then MergeRuns([Extend(ms[0], ms[1])] + ms[2..])
    else [ms[0]] + MergeRuns(ms[1..])
  }

  lemma MergeStep(m: Match, next: Match, rest: seq<Match>)
    ensures next.start < m.end ==> MergeRuns([m, next] + rest) == MergeRuns([Extend(m, next)] + rest)
    ensures next.start >= m.end ==> MergeRuns([m, next] + rest) == [m] + MergeRuns([next] + rest)
  {
    var ms := [m, next] + rest;
    assert ms[2..] == rest && ms[1..] == [next] + rest;
  }

  /** Reads one run from position from on: the match and every following one that starts before it ends. */
  method AbsorbRun(a: array<Match>, from: nat) returns (m: Match, i: nat)
    requires from < a.Length
    ensures from < i <= a.Length
    ensures MergeRuns(a[from..]) == [m] + MergeRuns(a[i..])
  {
    m, i := a[from], from + 1;
    assert a[from..] == [m] + a[i..];
    while i < a.Length && a[i].start < m.end
      invariant from < i <= a.Length
      invariant MergeRuns([m] + a[i..]) == MergeRuns(a[from..])
    {
      MergeStep(m, a[i], a[i + 1..]);
      assert [m] + a[i..] == [m, a[i]] + a[i + 1..];
      if a[i].end > m.end {
        m := m.(end := a[i].end);
      }
      i := i + 1;
    }
    if i < a.Length {
      MergeStep(m, a[i], a[i + 1..]);
      assert [m] + a[i..] == [m, a[i]] + a[i + 1..];
      assert a[i..] == [a[i]] + a[i + 1..];
    } else {
      assert a[i..] == [];
    }
  }

  /** One run written moves from what is left to what is out. */
  lemma OneMoved<T>(out: seq<T>, m: T, later: seq<T>, left: seq<T>, all: seq<T>)
    requires out + left == all && left == [m] + later
    ensures (out + [m]) + later == all
  {
  }

  lemma DropSame<T>(a: seq<T>, b: seq<T>, i: nat, j: nat)
    requires |a| == |b| && i <= j <= |a| && a[i..] == b[i..]
    ensures a[j..] == b[j..]
  {
    assert a[j..] == a[i..][j - i..] && b[j..] == b[i..][j - i..];
  }

  method PlaceRun(a: array<Match>, merged: nat, next: nat, m: Match)
    requires merged < next <= a.Length
    modifies a
    ensures a[..merged + 1] == old(a[..merged]) + [m] && a[next..] == old(a[next..])
  {
    a[merged] := m;
  }

  /** One turn of the merge: reads the next run and writes it at place merged, behind everything unread. */
  method MergeTurn(a: array<Match>, merged: nat, i: nat, ghost was: seq<Match>, ghost all: seq<Match>)
    returns (next: nat)
    requires merged <= i < a.Length == |was| && a[i..] == was[i..] && a[..merged] + MergeRuns(was[i..]) == all
    modifies a
    ensures merged < next && i < next <= a.Length && a[next..] == was[next..]
    ensures a[..merged + 1] + MergeRuns(was[next..]) == all
  {
    var m: Match;
    m, next := AbsorbRun(a, i);
    DropSame(a[..], was, i, next);
    OneMoved(a[..merged], m, MergeRuns(was[next..]), MergeRuns(was[i..]), all);
    PlaceRun(a, merged, next, m);
  }

  /** Merges in place: the write index stays behind the read index, so no unread match is overwritten. */
  method MergeInPlace(a: array<Match>) returns (merged: nat)
    modifies a
    ensures merged <= a.Length
    ensures a[..merged] == MergeRuns(old(a[..]))
  {
    merged := 0;
    var i := 0;
    ghost var was := a[..];
    assert a[0..] == was[0..] == was;
    while i < a.Length
      invariant merged <= i <= a.Length && a[i..] == was[i..]
      invariant a[..merged] + MergeRuns(was[i..]) == MergeRuns(was)
    {
      i := MergeTurn(a, merged, i, was, MergeRuns(was));
      merged := merged + 1;
    }
    assert was[i..] == [] && MergeRuns([]) == [];
    assert a[..merged] + [] == a[..merged];
  }

  lemma {:induction false} MergeKeepsSpans(ms: seq<Match>, n: nat)
    requires SpansOk(ms, n)
    ensures SpansOk(MergeRuns(ms), n)
    decreases |ms|
  {
    if |ms| >= 2 {
      if ms[1].start < ms[0].end {
        MergeKeepsSpans([Extend(ms[0], ms[1])] + ms[2..], n);
      } else {
        MergeKeepsSpans(ms[1..], n);
      }
    }
  }

  predicate Disjoint(runs: seq<Match>) {
    forall i, j :: 0 <= i < j < |runs| ==> runs[i].end <= runs[j].start
  }

  /** The runs come sorted and disjoint, and start no earlier than the list does. */
  lemma {:induction false} MergeDisjoint(ms: seq<Match>, n: nat)
    requires SpansOk(ms, n) && Sorted(ms)
    ensures Disjoint(MergeRuns(ms))
    ensures ms != [] ==> MergeRuns(ms) != [] && MergeRuns(ms)[0].start == ms[0].start
    ensures forall k :: 0 <= k < |MergeRuns(ms)| ==> ms[0].start <= MergeRuns(ms)[k].start
    decreases |ms|
  {
    if |ms| >= 2 {
      if ms[1].start < ms[0].end {
        MergeDisjoint([Extend(ms[0], ms[1])] + ms[2..], n);
      } else {
        MergeDisjoint(ms[1..], n);
      }
    }
  }

  lemma CoveredSplit(a: seq<Match>, b: seq<Match>, k: nat)
    ensures Covered(a + b, k) <==> Covered(a, k) || Covered(b, k)
  {
    if Covered(a, k) {
      var j :| 0 <= j < |a| && a[j].start <= k < a[j].end;
      assert (a + b)[j] == a[j];
    }
    if Covered(b, k) {
      var j :| 0 <= j < |b| && b[j].start <= k < b[j].end;
      assert (a + b)[|a| + j] == b[j];
    }
  }

  lemma OpenSplit(a: seq<Match>, b: seq<Match>, k: nat)
    ensures Open(a + b, k) <==> Open(a, k) || Open(b, k)
  {
    if Open(a, k) {
      var j :| 0 <= j < |a| && a[j].start < k < a[j].end;
      assert (a + b)[j] == a[j];
    }
    if Open(b, k) {
      var j :| 0 <= j < |b| && b[j].start < k < b[j].end;
      assert (a + b)[|a| + j] == b[j];
    }
  }

  lemma CoveredOne(m: Match, k: nat)
    ensures Covered([m], k) <==> m.start <= k < m.end
    ensures Open([m], k) <==> m.start < k < m.end
  {
    if m.start <= k < m.end {
      assert [m][0] == m;
    }
  }

  /** The runs cover exactly what the matches cover. */
  lemma {:induction false} MergeSameUnion(ms: seq<Match>, k: nat)
    requires Sorted(ms)
    ensures Covered(MergeRuns(ms), k) <==> Covered(ms, k)
    decreases |ms|
  {
    if |ms| >= 2 {
      var m, next, rest := ms[0], ms[1], ms[2..];
      assert ms == [m] + ([next] + rest);
      CoveredSplit([m], [next] + rest, k);
      CoveredSplit([next], rest, k);
      CoveredOne(m, k);
      CoveredOne(next, k);
      if next.start < m.end {
        var joined := Extend(m, next);
        MergeSameUnion([joined] + rest, k);
        CoveredSplit([joined], rest, k);
        CoveredOne(joined, k);
      } else {
        assert ms[1..] == [next] + rest;
        MergeSameUnion(ms[1..], k);
        CoveredSplit([m], MergeRuns(ms[1..]), k);
      }
    }
  }

  /**
   * Match k begins the run: the run starts and prints as it does, every earlier match ends by then, and every later
   * one starts no earlier.
   */
  predicate Begins(ms: seq<Match>, k: nat, run: Match) {
    && k < |ms| && run.start == ms[k].start && run.replacement == ms[k].replacement
    && (forall j :: 0 <= j < k ==> ms[j].end <= run.start)
    && (forall j :: k <= j < |ms| ==> ms[j].start >= run.start)
  }

  /** Every run of a sorted list is begun by one match: by start, then rule order, the first of the run. */
  lemma {:induction false} RunsPrintFirst(ms: seq<Match>, n: nat, i: nat) returns (k: nat)
    requires SpansOk(ms, n) && Sorted(ms) && i < |MergeRuns(ms)|
    ensures Begins(ms, k, MergeRuns(ms)[i])
    decreases |ms|
  {
    if |ms| < 2 {
      k := i;
    } else if ms[1].start < ms[0].end {
      var joined := [Extend(ms[0], ms[1])] + ms[2..];
      k := RunsPrintFirst(joined, n, i);
      BeginsJoined(ms, joined, k, MergeRuns(ms)[i]);
      k := if k == 0 then 0 else k + 1;
    } else if i == 0 {
      k := 0;
    } else {
      k := RunsPrintFirst(ms[1..], n, i - 1);
      BeginsLater(ms, n, k, MergeRuns(ms)[i]);
      k := k + 1;
    }
  }

  lemma BeginsJoined(ms: seq<Match>, joined: seq<Match>, k: nat, run: Match)
    requires |ms| >= 2 && Sorted(ms) && joined == [Extend(ms[0], ms[1])] + ms[2..] && Begins(joined, k, run)
    ensures Begins(ms, if k == 0 then 0 else k + 1, run)
  {
    assert forall j :: 2 <= j < |ms| ==> ms[j] == joined[j - 1];
    if k > 0 {
      assert joined[0].end <= run.start;
    }
  }

  lemma BeginsLater(ms: seq<Match>, n: nat, k: nat, run: Match)
    requires |ms| >= 2 && SpansOk(ms, n) && Sorted(ms) && ms[1].start >= ms[0].end && Begins(ms[1..], k, run)
    ensures Begins(ms, k + 1, run)
  {
    assert forall j :: 1 <= j < |ms| ==> ms[j] == ms[1..][j - 1];
  }

  // ---- Splicing ----

  /** What Splice may be given: sorted disjoint runs inside the input, none before end. */
  predicate RunsOk(runs: seq<Match>, n: nat, end: nat) {
    end <= n && SpansOk(runs, n) && Disjoint(runs) && (runs != [] ==> end <= runs[0].start)
  }

  /** The input from end on with every run replaced. */
  function Splice(s: string, runs: seq<Match>, end: nat): string
    requires RunsOk(runs, |s|, end)
  {
    if runs == [] then s[end..]
    else s[end..runs[0].start] + runs[0].replacement + Splice(s, runs[1..], runs[0].end)
  }

  lemma StartingAtFirst(m: Match, rest: seq<Match>, k: nat)
    ensures StartingAt([m] + rest, k) == (if m.start == k then [m] else []) + StartingAt(rest, k)
  {
    assert ([m] + rest)[1..] == rest;
  }

  lemma {:induction false} NoneStarting(ms: seq<Match>, k: nat)
    requires forall j :: 0 <= j < |ms| ==> ms[j].start > k
    ensures StartingAt(ms, k) == []
  {
    if ms != [] {
      NoneStarting(ms[1..], k);
    }
  }

  lemma PrintedFirst(m: Match, rest: seq<Match>)
    requires m.start <= m.end
    ensures Printed([m] + rest) == m.replacement + (if m.end > m.start then "" else Printed(rest))
    ensures m.start < m.end ==> Printed([m] + rest) == m.replacement
  {
    assert ([m] + rest)[1..] == rest;
  }

  /** Joining two overlapping matches changes nothing from the first one's start on. */
  lemma JoinEmits(s: string, m: Match, next: Match, rest: seq<Match>, p: nat)
    requires m.start <= next.start < m.end && next.start <= next.end && m.start <= p
    ensures Emit(s, [m] + ([next] + rest), p) == Emit(s, [Extend(m, next)] + rest, p)
  {
    var joined := Extend(m, next);
    CoveredSplit([m], [next] + rest, p);
    CoveredSplit([next], rest, p);
    CoveredSplit([joined], rest, p);
    OpenSplit([m], [next] + rest, p);
    OpenSplit([next], rest, p);
    OpenSplit([joined], rest, p);
    CoveredOne(m, p);
    CoveredOne(next, p);
    CoveredOne(joined, p);
    StartingAtFirst(m, [next] + rest, p);
    StartingAtFirst(next, rest, p);
    StartingAtFirst(joined, rest, p);
    assert Open([m] + ([next] + rest), p) == Open([joined] + rest, p);
    assert Covered([m] + ([next] + rest), p) == Covered([joined] + rest, p);
    if p == m.start {
      PrintedFirst(m, StartingAt([next] + rest, p));
      PrintedFirst(joined, StartingAt(rest, p));
    } else if next.start == p {
      assert Open([m], p);
    } else {
      assert StartingAt([m] + ([next] + rest), p) == StartingAt(rest, p) == StartingAt([joined] + rest, p);
    }
  }

  /** From its end on, a match no later one overlaps has no effect. */
  lemma PastRun(s: string, m: Match, rest: seq<Match>, p: nat)
    requires m.start < p && m.end <= p
    ensures Emit(s, [m] + rest, p) == Emit(s, rest, p)
  {
    CoveredSplit([m], rest, p);
    OpenSplit([m], rest, p);
    CoveredOne(m, p);
    StartingAtFirst(m, rest, p);
    assert [] + StartingAt(rest, p) == StartingAt(rest, p);
  }

  lemma PastRunFrom(s: string, m: Match, rest: seq<Match>, p: nat)
    requires m.start < p && m.end <= p
    ensures MaskedFrom(s, [m] + rest, p) == MaskedFrom(s, rest, p)
  {
    forall q: nat | p <= q <= |s| ensures Emit(s, [m] + rest, q) == Emit(s, rest, q) {
      PastRun(s, m, rest, q);
    }
    SameEmits(s, [m] + rest, rest, p);
  }

  /** It prints its replacement where it starts and hides the runes up to its end. */
  lemma InsideRun(s: string, m: Match, rest: seq<Match>, p: nat)
    requires m.start <= p < m.end && (forall j :: 0 <= j < |rest| ==> rest[j].start >= m.end)
    ensures Emit(s, [m] + rest, p) == if p == m.start then m.replacement else ""
  {
    CoveredSplit([m], rest, p);
    OpenSplit([m], rest, p);
    CoveredOne(m, p);
    StartingAtFirst(m, rest, p);
    NoneStarting(rest, p);
    if p == m.start {
      PrintedFirst(m, []);
      assert [m] + [] == [m];
    }
  }

  lemma OneStep(s: string, ms: seq<Match>, k: nat)
    requires k <= |s|
    ensures MaskedFrom(s, ms, k) == Emit(s, ms, k) + MaskedFrom(s, ms, k + 1)
  {
    assert Parts(s, ms)[k] == Emit(s, ms, k);
  }

  lemma SilentSpan(s: string, ms: seq<Match>, lo: nat, hi: nat)
    requires lo <= hi <= |s| && forall q: nat :: lo <= q < hi ==> Emit(s, ms, q) == ""
    ensures MaskedFrom(s, ms, lo) == MaskedFrom(s, ms, hi)
  {
    JoinSilent(Parts(s, ms), lo, hi);
  }

  lemma NonemptyRunPrinted(s: string, m: Match, rest: seq<Match>, ms: seq<Match>)
    requires m.start < m.end <= |s| && (forall j :: 0 <= j < |rest| ==> rest[j].start >= m.end)
    requires ms == [m] + rest
    ensures MaskedFrom(s, ms, m.start) == m.replacement + MaskedFrom(s, rest, m.end)
  {
    forall q: nat | m.start <= q < m.end ensures Emit(s, ms, q) == if q == m.start then m.replacement else "" {
      InsideRun(s, m, rest, q);
    }
    OneStep(s, ms, m.start);
    SilentSpan(s, ms, m.start + 1, m.end);
    PastRunFrom(s, m, rest, m.end);
  }

  lemma EmptyRunEmits(s: string, m: Match, rest: seq<Match>)
    requires m.start == m.end && (forall j :: 0 <= j < |rest| ==> rest[j].start >= m.end)
    ensures Emit(s, [m] + rest, m.start) == m.replacement + Emit(s, rest, m.start)
  {
    var p := m.start;
    CoveredSplit([m], rest, p);
    OpenSplit([m], rest, p);
    CoveredOne(m, p);
    StartingAtFirst(m, rest, p);
    PrintedFirst(m, StartingAt(rest, p));
    assert !Open(rest, p);
  }

  lemma EmptyRunPrinted(s: string, m: Match, rest: seq<Match>, ms: seq<Match>)
    requires m.start == m.end <= |s| && (forall j :: 0 <= j < |rest| ==> rest[j].start >= m.end)
    requires ms == [m] + rest
    ensures MaskedFrom(s, ms, m.start) == m.replacement + MaskedFrom(s, rest, m.end)
  {
    var p := m.start;
    EmptyRunEmits(s, m, rest);
    OneStep(s, ms, p);
    OneStep(s, rest, p);
    PastRunFrom(s, m, rest, p + 1);
    Assoc(m.replacement, Emit(s, rest, p), MaskedFrom(s, rest, p + 1));
  }

  lemma KeptBefore(s: string, ms: seq<Match>, hi: nat, q: nat)
    requires q < hi <= |s| && (forall j :: 0 <= j < |ms| ==> ms[j].start >= hi)
    ensures Emit(s, ms, q) == [s[q]]
  {
    NoneStarting(ms, q);
    assert !Covered(ms, q) && !Open(ms, q);
  }

  /** Before the first match every rune is kept. */
  lemma GapKept(s: string, ms: seq<Match>, lo: nat, hi: nat)
    requires lo <= hi <= |s| && (forall j :: 0 <= j < |ms| ==> ms[j].start >= hi)
    ensures MaskedFrom(s, ms, lo) == s[lo..hi] + MaskedFrom(s, ms, hi)
  {
    forall q: nat | lo <= q < hi ensures Emit(s, ms, q) == [s[q]] {
      KeptBefore(s, ms, hi, q);
    }
    JoinKept(Parts(s, ms), s, lo, hi);
  }

  lemma NothingMasked(s: string, from: nat)
    requires from <= |s|
    ensures MaskedFrom(s, [], from) == s[from..]
  {
    GapKept(s, [], from, |s|);
    assert s[from..|s|] == s[from..];
    OneStep(s, [], |s|);
    assert Emit(s, [], |s|) == "";
  }

  /** Replacing two overlapping matches by their join does not change the masked text. */
  lemma JoinedAlike(s: string, m: Match, next: Match, rest: seq<Match>, ms: seq<Match>, joined: seq<Match>, end: nat)
    requires ms == [m] + ([next] + rest) && joined == [Extend(m, next)] + rest
    requires end <= m.start <= next.start < m.end && next.start <= next.end && m.start <= |s|
    requires forall j :: 0 <= j < |rest| ==> rest[j].start >= m.start
    ensures MaskedFrom(s, ms, end) == MaskedFrom(s, joined, end)
  {
    forall p: nat | m.start <= p <= |s| ensures Emit(s, ms, p) == Emit(s, joined, p) {
      JoinEmits(s, m, next, rest, p);
    }
    SameEmits(s, ms, joined, m.start);
    GapKept(s, ms, end, m.start);
    GapKept(s, joined, end, m.start);
  }

  lemma AloneRun(s: string, m: Match, rest: seq<Match>, ms: seq<Match>, end: nat)
    requires end <= m.start <= m.end <= |s| && (forall j :: 0 <= j < |rest| ==> rest[j].start >= m.end)
    requires ms == [m] + rest
    ensures MaskedFrom(s, ms, end) == s[end..m.start] + m.replacement + MaskedFrom(s, rest, m.end)
  {
    GapKept(s, ms, end, m.start);
    if m.start < m.end {
      NonemptyRunPrinted(s, m, rest, ms);
    } else {
      EmptyRunPrinted(s, m, rest, ms);
    }
    Assoc(s[end..m.start], m.replacement, MaskedFrom(s, rest, m.end));
  }

  predicate SortedFrom(ms: seq<Match>, n: nat, end: nat) {
    end <= n && SpansOk(ms, n) && Sorted(ms) && (ms != [] ==> end <= ms[0].start)
  }

  lemma MergedRunsOk(ms: seq<Match>, n: nat, end: nat)
    requires SortedFrom(ms, n, end)
    ensures RunsOk(MergeRuns(ms), n, end)
  {
    MergeKeepsSpans(ms, n);
    MergeDisjoint(ms, n);
  }

  lemma JoinedStep(s: string, ms: seq<Match>, joined: seq<Match>, end: nat)
    requires SortedFrom(ms, |s|, end) && |ms| >= 2 && ms[1].start < ms[0].end
    requires joined == [Extend(ms[0], ms[1])] + ms[2..]
    ensures SortedFrom(joined, |s|, end) && MergeRuns(joined) == MergeRuns(ms)
    ensures MaskedFrom(s, joined, end) == MaskedFrom(s, ms, end)
  {
    assert ms == [ms[0]] + ([ms[1]] + ms[2..]);
    JoinedAlike(s, ms[0], ms[1], ms[2..], ms, joined, end);
  }

  lemma AloneStep(s: string, ms: seq<Match>, m: Match, rest: seq<Match>, end: nat)
    requires SortedFrom(ms, |s|, end) && ms == [m] + rest && (rest != [] ==> rest[0].start >= m.end)
    ensures SortedFrom(rest, |s|, m.end) && MergeRuns(ms) == [m] + MergeRuns(rest)
    ensures MaskedFrom(s, ms, end) == s[end..m.start] + m.replacement + MaskedFrom(s, rest, m.end)
  {
    assert ms[0] == m && ms[1..] == rest;
    assert forall k :: 0 <= k < |rest| ==> rest[k] == ms[k + 1];
    AloneRun(s, m, rest, ms, end);
  }

  /** Splicing the merged runs of a sorted list gives the masked text. */
  lemma {:induction false} SpliceIsMasked(s: string, ms: seq<Match>, end: nat)
    requires SortedFrom(ms, |s|, end)
    ensures RunsOk(MergeRuns(ms), |s|, end)
    ensures Splice(s, MergeRuns(ms), end) == MaskedFrom(s, ms, end)
    decreases |ms|
  {
    MergedRunsOk(ms, |s|, end);
    if ms == [] {
      NothingMasked(s, end);
    } else if |ms| >= 2 && ms[1].start < ms[0].end {
      var joined := [Extend(ms[0], ms[1])] + ms[2..];
      JoinedStep(s, ms, joined, end);
      SpliceIsMasked(s, joined, end);
    } else {
      var m, rest := ms[0], ms[1..];
      AloneStep(s, ms, m, rest, end);
      SpliceIsMasked(s, rest, m.end);
      SpliceFirst(s, m, MergeRuns(rest), MergeRuns(ms), end);
    }
  }

  lemma SpliceFirst(s: string, m: Match, later: seq<Match>, runs: seq<Match>, end: nat)
    requires runs == [m] + later && RunsOk(runs, |s|, end)
    ensures RunsOk(later, |s|, m.end)
    ensures Splice(s, runs, end) == s[end..m.start] + m.replacement + Splice(s, later, m.end)
  {
    assert runs[1..] == later;
    assert forall j :: 0 <= j < |later| ==> later[j] == runs[j + 1];
  }

  // ---- The output's length ----

  function Removed(runs: seq<Match>): int {
    if runs == [] then 0 else runs[0].end - runs[0].start + Removed(runs[1..])
  }

  function Added(runs: seq<Match>): nat {
    if runs == [] then 0 else |runs[0].replacement| + Added(runs[1..])
  }

  /** The length reserved up front is exactly the length written. */
  lemma {:induction false} SpliceLength(s: string, runs: seq<Match>, end: nat)
    requires RunsOk(runs, |s|, end)
    ensures |Splice(s, runs, end)| == |s| - end - Removed(runs) + Added(runs)
  {
    if runs != [] {
      SpliceLength(s, runs[1..], runs[0].end);
    }
  }

  // ---- The rewrite ----

  method CollectRule(r: Rule, s: string, matches: seq<Match>) returns (more: seq<Match>)
    requires RuleOk(r)
    ensures more == matches + if r.compiled then Tagged(FindAll(r.ast, s), r.replacement) else []
  {
    if !r.compiled {
      return matches;
    }
    if r.wrapped {
      SingletonAgrees(r.ast, s);
      var (start, end, count) := Singleton(r.ast, s);
      if count == 0 {
        return matches;
      }
      if count == 1 {
        assert FindAll(r.ast, s) == [(start, end)];
        return matches + [Match(start, end, r.replacement)];
      }
    }
    more := matches + Tagged(FindAll(r.ast, s), r.replacement);
  }

  method Collect(rules: seq<Rule>, s: string) returns (matches: seq<Match>)
    requires RulesOk(rules)
    ensures matches == RawMatches(rules, s)
  {
    matches := [];
    for k := 0 to |rules|
      invariant matches == RawMatches(rules[..k], s)
    {
      assert rules[..k + 1][..k] == rules[..k];
      matches := CollectRule(rules[k], s, matches);
    }
    assert rules[..|rules|] == rules;
  }

  method OutputLength(s: string, runs: seq<Match>) returns (outputLen: int)
    ensures outputLen == |s| - Removed(runs) + Added(runs)
  {
    outputLen := |s|;
    for k := 0 to |runs|
      invariant outputLen - Removed(runs[k..]) == |s| - Removed(runs)
    {
      assert runs[k..][1..] == runs[k + 1..];
      outputLen := outputLen - (runs[k].end - runs[k].start);
    }
    for k := 0 to |runs|
      invariant outputLen + Added(runs[k..]) == |s| - Removed(runs) + Added(runs)
    {
      assert runs[k..][1..] == runs[k + 1..];
      outputLen := outputLen + |runs[k].replacement|;
    }
  }

  method WriteRuns(s: string, runs: seq<Match>) returns (out: string)
    requires RunsOk(runs, |s|, 0)
    ensures out == Splice(s, runs, 0)
  {
    out := "";
    var end: nat := 0;
    for k := 0 to |runs|
      invariant RunsOk(runs[k..], |s|, end)
      invariant out + Splice(s, runs[k..], end) == Splice(s, runs, 0)
    {
      var m := runs[k];
      ghost var later := Splice(s, runs[k + 1..], m.end);
      SpliceFirst(s, m, runs[k + 1..], runs[k..], end);
      Assoc(out, s[end..m.start] + m.replacement, later);
      Assoc(out, s[end..m.start], m.replacement);
      out := out + s[end..m.start];
      out := out + m.replacement;
      end := m.end;
    }
    out := out + s[end..];
  }

  lemma WholeInput(s: string, runs: seq<Match>)
    requires |runs| == 1 && runs[0].start == 0 && runs[0].end == |s|
    ensures RunsOk(runs, |s|, 0) && Splice(s, runs, 0) == runs[0].replacement
  {
    assert Splice(s, runs[1..], |s|) == "";
  }

  /** Sorting, merging and splicing mean: position by position, what the raw matches say. */
  lemma SortedMergedSpliced(rules: seq<Rule>, s: string)
    ensures var runs := MergeRuns(StableSort(RawMatches(rules, s)));
            RunsOk(runs, |s|, 0) && Splice(s, runs, 0) == MaskedFrom(s, RawMatches(rules, s), 0)
  {
    var raw := RawMatches(rules, s);
    RawSpans(rules, s);
    StableSortOk(raw);
    forall k | 0 <= k < |StableSort(raw)| ensures StableSort(raw)[k] in raw {
      assert StableSort(raw)[k] in multiset(raw);
    }
    SpliceIsMasked(s, StableSort(raw), 0);
    SortKeepsMeaning(s, raw);
  }

  /**
   * The masked text, and the boxed constant when one run covers the whole input. The shortcut scan, the sort, the
   * in-place merge and the splice together print what the raw matches mean, and the reserved length is exact.
   */
  method MaskStringResult(rules: seq<Rule>, s: string) returns (out: string, boxed: Option<string>, reserved: int)
    requires RulesOk(rules)
    ensures out == MaskedFrom(s, RawMatches(rules, s), 0)
    ensures RawMatches(rules, s) == [] ==> out == s && boxed == None
    ensures boxed.Some? ==> boxed.value == out
    ensures boxed.Some? <==> var runs := MergeRuns(StableSort(RawMatches(rules, s)));
                             |runs| == 1 && runs[0].start == 0 && runs[0].end == |s|
    ensures reserved == |out|
  {
    if |rules| == 0 {
      NothingMasked(s, 0);
      return s, None, |s|;
    }
    var raw := Collect(rules, s);
    if |raw| == 0 {
      NothingMasked(s, 0);
      return s, None, |s|;
    }
    SortedMergedSpliced(rules, s);
    var sorted := StableSort(raw);
    var a := new Match[|sorted|](k requires 0 <= k < |sorted| => sorted[k]);
    assert a[..] == sorted;
    var merged := MergeInPlace(a);
    var runs := a[..merged];
    if |runs| == 1 && runs[0].start == 0 && runs[0].end == |s| {
      WholeInput(s, runs);
      return runs[0].replacement, Some(runs[0].replacement), |runs[0].replacement|;
    }
    reserved := OutputLength(s, runs);
    SpliceLength(s, runs, 0);
    out := WriteRuns(s, runs);
    boxed := None;
  }
}
