/** Hunks widened by the enclosing definitions' lines. */
module Segments {
  import opened Sequences
  import opened Diffs
  import opened Partition

  // `first` and `last` are new line numbers, absent when the run only removes lines.
  datatype Run = Run(first: Option<int>, last: Option<int>, lines: seq<DiffLine>)

  function Numbers(lines: seq<DiffLine>): seq<int> {
    if lines == [] then []
    else if lines[0].newLine.None? then Numbers(lines[1..])
    else [lines[0].newLine.value] + Numbers(lines[1..])
  }

  function ScopeLine(scope: map<int, string>, n: int): DiffLine
    requires n in scope
  {
    DiffLine(scope[n], None, Some(n), Unchanged)
  }

  function ScopeLines(scope: map<int, string>, from: int, stop: int): (lines: seq<DiffLine>)
    requires from <= stop && forall n | from <= n < stop :: n in scope
    ensures |lines| == stop - from
    decreases stop - from
  {
    if from == stop then [] else [ScopeLine(scope, from)] + ScopeLines(scope, from + 1, stop)
  }

  function LowEdge(scope: map<int, string>, low: int, floor: int): (edge: int)
    ensures edge <= low && (low > floor ==> edge > floor)
    ensures forall n | edge <= n < low :: n in scope
    decreases low - floor
  {
    if low - 1 > floor && low - 1 in scope then LowEdge(scope, low - 1, floor) else low
  }

  function Above(scope: map<int, string>, high: int): set<int> {
    set n <- scope.Keys | n > high
  }

  function HighEdge(scope: map<int, string>, high: int): (edge: int)
    ensures edge >= high && edge + 1 !in scope
    ensures forall n | high < n <= edge :: n in scope
    decreases Above(scope, high)
  {
    if high + 1 in scope then
      assert high + 1 in Above(scope, high) && high + 1 !in Above(scope, high + 1);
      HighEdge(scope, high + 1)
    else high
  }

  function Greatest(runs: seq<Run>): Option<int> {
    if runs == [] then None
    else
      var rest, last := Greatest(runs[..|runs| - 1]), runs[|runs| - 1].last;
      if last.None? || (rest.Some? && rest.value >= last.value) then rest else last
  }

  // The greatest line number any run reached.
  function Floor(runs: seq<Run>): int {
    var greatest := Greatest(runs);
    if greatest.None? then 0 else greatest.value
  }

  function Extended(runs: seq<Run>, hunk: seq<DiffLine>): seq<Run> {
    if runs == [] then [Run(None, None, hunk)]
    else
      var last := runs[|runs| - 1];
      runs[..|runs| - 1] + [last.(lines := last.lines + hunk)]
  }

  // The hunk from `start` to `end` with the scope lines that reach down to `low` and up to `high`.
  function Wrapped(hunk: seq<DiffLine>, scope: map<int, string>, low: int, start: int, end: int, high: int): Run
    requires low <= start && end <= high
    requires forall n | low <= n < start || end < n <= high :: n in scope
  {
    Run(Some(low), Some(high), ScopeLines(scope, low, start) + hunk + ScopeLines(scope, end + 1, high + 1))
  }

  function Widened(hunk: seq<DiffLine>, scope: map<int, string>, floor: int): Run
    requires Numbers(hunk) != []
  {
    var numbers := Numbers(hunk);
    var start, end := numbers[0], numbers[|numbers| - 1];
    Wrapped(hunk, scope, LowEdge(scope, start, floor), start, end, HighEdge(scope, end))
  }

  function AddHunk(runs: seq<Run>, hunk: seq<DiffLine>, scope: map<int, string>): seq<Run> {
    if Numbers(hunk) == [] then Extended(runs, hunk) else runs + [Widened(hunk, scope, Floor(runs))]
  }

  function AddHunks(runs: seq<Run>, hunks: seq<seq<DiffLine>>, scope: map<int, string>): seq<Run>
    decreases hunks
  {
    if hunks == [] then runs else AddHunks(AddHunk(runs, hunks[0], scope), hunks[1..], scope)
  }

  function SegmentsOf(file: ChangedFile): seq<Run> {
    AddHunks([], HunkLinesOf(file), file.scope)
  }

  method Lower(scope: map<int, string>, start: int, floor: int) returns (low: int)
    ensures low == LowEdge(scope, start, floor)
  {
    low := start;
    while low - 1 > floor && low - 1 in scope
      invariant LowEdge(scope, low, floor) == LowEdge(scope, start, floor)
      decreases low - floor
    {
      low := low - 1;
    }
  }

  method Raise(scope: map<int, string>, end: int) returns (high: int)
    ensures high == HighEdge(scope, end)
  {
    high := end;
    while high + 1 in scope
      invariant HighEdge(scope, high) == HighEdge(scope, end)
      decreases HighEdge(scope, high) - high
    {
      high := high + 1;
    }
  }

  method Widen(hunk: seq<DiffLine>, scope: map<int, string>, floor: int) returns (run: Run)
    requires Numbers(hunk) != []
    ensures run == Widened(hunk, scope, floor)
  {
    var numbers := Numbers(hunk);
    var start, end := numbers[0], numbers[|numbers| - 1];
    var low := Lower(scope, start, floor);
    var high := Raise(scope, end);
    run := Run(Some(low), Some(high),
               ScopeLines(scope, low, start) + hunk + ScopeLines(scope, end + 1, high + 1));
  }

  method SegmentRuns(file: ChangedFile) returns (runs: seq<Run>)
    ensures runs == SegmentsOf(file)
  {
    var hunks := HunkLines(file);
    runs := [];
    for i := 0 to |hunks|
      invariant AddHunks(runs, hunks[i..], file.scope) == AddHunks([], hunks, file.scope)
    {
      assert hunks[i..][1..] == hunks[i + 1..];
      if Numbers(hunks[i]) == [] {
        runs := Extended(runs, hunks[i]);
      } else {
        var run := Widen(hunks[i], file.scope, Floor(runs));
        runs := runs + [run];
      }
    }
  }

  // ---- Nothing lost, nothing repeated ------------------------------------------------------

  predicate IsScope(line: DiffLine) { line.kind.Unchanged? && line.oldLine.None? }

  function DiffLines(lines: seq<DiffLine>): seq<DiffLine> {
    Filter((l: DiffLine) => !IsScope(l), lines)
  }

  function AllLines(runs: seq<Run>): seq<DiffLine> {
    if runs == [] then [] else AllLines(runs[..|runs| - 1]) + runs[|runs| - 1].lines
  }

  lemma AppendRun(runs: seq<Run>, run: Run)
    ensures AllLines(runs + [run]) == AllLines(runs) + run.lines
    ensures Greatest(runs + [run])
         == var rest := Greatest(runs);
            if run.last.None? || (rest.Some? && rest.value >= run.last.value) then rest else run.last
  {
    var next := runs + [run];
    assert next[..|next| - 1] == runs && next[|next| - 1] == run;
  }

  lemma ExtendLast(runs: seq<Run>, hunk: seq<DiffLine>)
    ensures AllLines(Extended(runs, hunk)) == AllLines(runs) + hunk
    ensures Greatest(Extended(runs, hunk)) == Greatest(runs)
  {
    if runs == [] {
      AppendRun([], Run(None, None, hunk));
      assert [] + [Run(None, None, hunk)] == Extended(runs, hunk);
    } else {
      var front, last := runs[..|runs| - 1], runs[|runs| - 1];
      AppendRun(front, last.(lines := last.lines + hunk));
    }
  }

  predicate Genuine(lines: seq<DiffLine>) { forall l <- lines :: !IsScope(l) }

  predicate AllGenuine(hunks: seq<seq<DiffLine>>) { forall h <- hunks :: Genuine(h) }

  lemma {:induction false} GenuineKept(lines: seq<DiffLine>)
    requires Genuine(lines)
    ensures DiffLines(lines) == lines
  {
    if lines != [] {
      assert lines[0] in lines;
      GenuineKept(lines[1..]);
    }
  }

  lemma {:induction false} ScopeDropped(scope: map<int, string>, from: int, stop: int)
    requires from <= stop && forall n | from <= n < stop :: n in scope
    ensures DiffLines(ScopeLines(scope, from, stop)) == []
    decreases stop - from
  {
    if from < stop {
      ScopeDropped(scope, from + 1, stop);
    }
  }

  lemma DiffLinesAppend(a: seq<DiffLine>, b: seq<DiffLine>)
    ensures DiffLines(a + b) == DiffLines(a) + DiffLines(b)
  {
    FilterAppend((l: DiffLine) => !IsScope(l), a, b);
  }

  lemma WrappedKeepsHunk(before: seq<DiffLine>, hunk: seq<DiffLine>, after: seq<DiffLine>)
    requires DiffLines(before) == [] == DiffLines(after) && Genuine(hunk)
    ensures DiffLines(before + hunk + after) == hunk
  {
    GenuineKept(hunk);
    DiffLinesAppend(before, hunk);
    DiffLinesAppend(before + hunk, after);
  }

  lemma WrappingKeepsHunk(hunk: seq<DiffLine>, scope: map<int, string>, low: int, start: int, end: int, high: int)
    requires low <= start && end <= high
    requires forall n | low <= n < start || end < n <= high :: n in scope
    requires Genuine(hunk)
    ensures DiffLines(Wrapped(hunk, scope, low, start, end, high).lines) == hunk
  {
    ScopeDropped(scope, low, start);
    ScopeDropped(scope, end + 1, high + 1);
    WrappedKeepsHunk(ScopeLines(scope, low, start), hunk, ScopeLines(scope, end + 1, high + 1));
  }

  lemma WidenedKeepsHunk(hunk: seq<DiffLine>, scope: map<int, string>, floor: int)
    requires Numbers(hunk) != [] && Genuine(hunk)
    ensures DiffLines(Widened(hunk, scope, floor).lines) == hunk
  {
    var numbers := Numbers(hunk);
    var start, end := numbers[0], numbers[|numbers| - 1];
    WrappingKeepsHunk(hunk, scope, LowEdge(scope, start, floor), start, end, HighEdge(scope, end));
  }

  lemma AddHunkKeepsLines(runs: seq<Run>, hunk: seq<DiffLine>, scope: map<int, string>)
    requires Genuine(hunk)
    ensures DiffLines(AllLines(AddHunk(runs, hunk, scope))) == DiffLines(AllLines(runs)) + hunk
  {
    if Numbers(hunk) != [] {
      var run := Widened(hunk, scope, Floor(runs));
      AppendRun(runs, run);
      DiffLinesAppend(AllLines(runs), run.lines);
      WidenedKeepsHunk(hunk, scope, Floor(runs));
    } else {
      ExtendLast(runs, hunk);
      GenuineKept(hunk);
      DiffLinesAppend(AllLines(runs), hunk);
    }
  }

  lemma {:induction false} AddHunksKeepLines(runs: seq<Run>, hunks: seq<seq<DiffLine>>, scope: map<int, string>)
    requires AllGenuine(hunks)
    ensures DiffLines(AllLines(AddHunks(runs, hunks, scope))) == DiffLines(AllLines(runs)) + Flatten(hunks)
    decreases hunks
  {
    if hunks == [] {
      assert DiffLines(AllLines(runs)) + [] == DiffLines(AllLines(runs));
    } else {
      AddHunkKeepsLines(runs, hunks[0], scope);
      AddHunksKeepLines(AddHunk(runs, hunks[0], scope), hunks[1..], scope);
      Associative(DiffLines(AllLines(runs)), hunks[0], Flatten(hunks[1..]));
    }
  }

  lemma {:induction false} GenuineParts(hunks: seq<seq<DiffLine>>)
    requires Genuine(Flatten(hunks))
    ensures AllGenuine(hunks)
  {
    if hunks != [] {
      var lines := Flatten(hunks);
      assert forall l <- hunks[0] :: l in lines;
      assert forall l <- Flatten(hunks[1..]) :: l in lines;
      GenuineParts(hunks[1..]);
    }
  }

  // ---- Supplied numbers increase ---------------------------------------------------------------

  predicate Increasing(ns: seq<int>) { forall i, j | 0 <= i < j < |ns| :: ns[i] < ns[j] }

  lemma {:induction false} NumbersAppend(a: seq<DiffLine>, b: seq<DiffLine>)
    ensures Numbers(a + b) == Numbers(a) + Numbers(b)
  {
    if a == [] {
      assert a + b == b;
    } else {
      assert (a + b)[1..] == a[1..] + b;
      NumbersAppend(a[1..], b);
    }
  }

  lemma {:induction false} ScopeNumbers(scope: map<int, string>, from: int, stop: int)
    requires from <= stop && forall n | from <= n < stop :: n in scope
    decreases stop - from
    ensures |Numbers(ScopeLines(scope, from, stop))| == stop - from
    ensures forall i :: 0 <= i < stop - from ==> Numbers(ScopeLines(scope, from, stop))[i] == from + i
  {
    if from < stop {
      ScopeNumbers(scope, from + 1, stop);
    }
  }

  // Every number of `ns` lies above `floor`, is positive, and is not a scope line.
  predicate Ahead(ns: seq<int>, floor: int, scope: map<int, string>) {
    Increasing(ns) && forall i | 0 <= i < |ns| :: ns[i] > floor && ns[i] > 0 && ns[i] !in scope
  }

  predicate AtMost(ns: seq<int>, high: int) { forall i | 0 <= i < |ns| :: ns[i] <= high }

  predicate MoreThan(ns: seq<int>, low: int) { forall i | 0 <= i < |ns| :: ns[i] > low }

  lemma IncreasingAppend(a: seq<int>, b: seq<int>, middle: int)
    requires Increasing(a) && Increasing(b) && AtMost(a, middle) && MoreThan(b, middle)
    ensures Increasing(a + b)
  {
  }

  lemma AheadSplit(ns: seq<int>, later: seq<int>, floor: int, scope: map<int, string>)
    requires ns != [] && Ahead(ns + later, floor, scope)
    ensures Increasing(ns) && MoreThan(ns, floor)
    ensures Ahead(later, ns[|ns| - 1], scope)
  {
    var all := ns + later;
    assert forall i | 0 <= i < |ns| :: all[i] == ns[i];
    assert forall i | 0 <= i < |later| :: all[|ns| + i] == later[i];
    assert all[|ns| - 1] == ns[|ns| - 1];
  }

  lemma Sandwich(before: seq<int>, ns: seq<int>, after: seq<int>, low: int, floor: int)
    requires Increasing(ns) && ns != [] && MoreThan(ns, floor) && floor < low && low + |before| == ns[0]
    requires forall i :: 0 <= i < |before| ==> before[i] == low + i
    requires forall i :: 0 <= i < |after| ==> after[i] == ns[|ns| - 1] + 1 + i
    ensures var all := before + ns + after;
            Increasing(all) && MoreThan(all, floor) && AtMost(all, ns[|ns| - 1] + |after|)
  {
    IncreasingAppend(before, ns, ns[0] - 1);
    IncreasingAppend(before + ns, after, ns[|ns| - 1]);
  }

  lemma SurroundedNumbers(before: seq<DiffLine>, hunk: seq<DiffLine>, after: seq<DiffLine>)
    ensures Numbers(before + hunk + after) == Numbers(before) + Numbers(hunk) + Numbers(after)
  {
    NumbersAppend(before, hunk);
    NumbersAppend(before + hunk, after);
  }

  // Scope lines around a hunk are numbered without a gap.
  lemma WrappedParts(hunk: seq<DiffLine>, scope: map<int, string>, low: int, start: int, end: int, high: int)
    requires low <= start && end <= high
    requires forall n | low <= n < start || end < n <= high :: n in scope
    ensures var before, after := Numbers(ScopeLines(scope, low, start)), Numbers(ScopeLines(scope, end + 1, high + 1));
            && Numbers(Wrapped(hunk, scope, low, start, end, high).lines) == before + Numbers(hunk) + after
            && |before| == start - low && |after| == high - end
            && (forall i :: 0 <= i < |before| ==> before[i] == low + i)
            && (forall i :: 0 <= i < |after| ==> after[i] == end + 1 + i)
  {
    ScopeNumbers(scope, low, start);
    ScopeNumbers(scope, end + 1, high + 1);
    SurroundedNumbers(ScopeLines(scope, low, start), hunk, ScopeLines(scope, end + 1, high + 1));
  }

  lemma WrappedNumbers(hunk: seq<DiffLine>, scope: map<int, string>, low: int, high: int, floor: int)
    requires Numbers(hunk) != [] && Increasing(Numbers(hunk)) && MoreThan(Numbers(hunk), floor)
    requires floor < low <= Numbers(hunk)[0] && Numbers(hunk)[|Numbers(hunk)| - 1] <= high
    requires forall n | low <= n < Numbers(hunk)[0] || Numbers(hunk)[|Numbers(hunk)| - 1] < n <= high :: n in scope
    ensures var ns := Numbers(hunk);
            var lines := Wrapped(hunk, scope, low, ns[0], ns[|ns| - 1], high).lines;
            Increasing(Numbers(lines)) && MoreThan(Numbers(lines), floor) && AtMost(Numbers(lines), high)
  {
    var ns := Numbers(hunk);
    var start, end := ns[0], ns[|ns| - 1];
    WrappedParts(hunk, scope, low, start, end, high);
    Sandwich(Numbers(ScopeLines(scope, low, start)), ns, Numbers(ScopeLines(scope, end + 1, high + 1)), low, floor);
  }

  predicate Settled(runs: seq<Run>) {
    Floor(runs) >= 0 && Increasing(Numbers(AllLines(runs))) && AtMost(Numbers(AllLines(runs)), Floor(runs))
  }

  lemma AppendSettled(runs: seq<Run>, run: Run)
    requires Settled(runs) && run.last.Some? && Floor(runs) < run.last.value
    requires Increasing(Numbers(run.lines)) && MoreThan(Numbers(run.lines), Floor(runs))
    requires AtMost(Numbers(run.lines), run.last.value)
    ensures Settled(runs + [run]) && Floor(runs + [run]) == run.last.value
  {
    AppendRun(runs, run);
    NumbersAppend(AllLines(runs), run.lines);
    IncreasingAppend(Numbers(AllLines(runs)), Numbers(run.lines), Floor(runs));
  }

  lemma WidenedNumbers(hunk: seq<DiffLine>, scope: map<int, string>, floor: int)
    requires Numbers(hunk) != [] && Increasing(Numbers(hunk)) && MoreThan(Numbers(hunk), floor)
    ensures var run, ns := Widened(hunk, scope, floor), Numbers(hunk);
            run.last == Some(HighEdge(scope, ns[|ns| - 1])) && floor < run.last.value
            && Increasing(Numbers(run.lines)) && MoreThan(Numbers(run.lines), floor)
            && AtMost(Numbers(run.lines), run.last.value)
  {
    var ns := Numbers(hunk);
    assert floor < ns[0] <= ns[|ns| - 1];
    WrappedNumbers(hunk, scope, LowEdge(scope, ns[0], floor), HighEdge(scope, ns[|ns| - 1]), floor);
  }

  lemma WidenedSettled(runs: seq<Run>, hunk: seq<DiffLine>, scope: map<int, string>, later: seq<int>)
    requires Numbers(hunk) != []
    requires Settled(runs) && Ahead(Numbers(hunk) + later, Floor(runs), scope)
    ensures var next := runs + [Widened(hunk, scope, Floor(runs))];
            Settled(next) && Ahead(later, Floor(next), scope)
  {
    var ns := Numbers(hunk);
    AheadSplit(ns, later, Floor(runs), scope);
    // A run of scope lines cannot reach a number the diff carries itself.
    assert Ahead(later, HighEdge(scope, ns[|ns| - 1]), scope);
    WidenedNumbers(hunk, scope, Floor(runs));
    AppendSettled(runs, Widened(hunk, scope, Floor(runs)));
  }

  lemma AddHunkSettled(runs: seq<Run>, hunk: seq<DiffLine>, scope: map<int, string>, later: seq<int>)
    requires Settled(runs) && Ahead(Numbers(hunk) + later, Floor(runs), scope)
    ensures var next := AddHunk(runs, hunk, scope);
            Settled(next) && Ahead(later, Floor(next), scope)
  {
    if Numbers(hunk) != [] {
      WidenedSettled(runs, hunk, scope, later);
    } else {
      assert Numbers(hunk) + later == later;
      ExtendLast(runs, hunk);
      NumbersAppend(AllLines(runs), hunk);
      assert Numbers(AllLines(runs)) + [] == Numbers(AllLines(runs));
    }
  }

  lemma {:induction false} AddHunksSettled(runs: seq<Run>, hunks: seq<seq<DiffLine>>, scope: map<int, string>)
    requires Settled(runs) && Ahead(Numbers(Flatten(hunks)), Floor(runs), scope)
    ensures Settled(AddHunks(runs, hunks, scope))
    decreases hunks
  {
    if hunks != [] {
      NumbersAppend(hunks[0], Flatten(hunks[1..]));
      AddHunkSettled(runs, hunks[0], scope, Numbers(Flatten(hunks[1..])));
      AddHunksSettled(AddHunk(runs, hunks[0], scope), hunks[1..], scope);
    }
  }

  /** Widening keeps the diff: dropping the scope lines again gives the file's diff lines in
      order, and when the scope names no line the diff already carries, the new line
      numbers supplied by all runs together strictly increase. */
  lemma SegmentsKeepDiff(file: ChangedFile)
    requires Genuine(file.lines)
    ensures DiffLines(AllLines(SegmentsOf(file))) == file.lines
    ensures Ahead(Numbers(file.lines), 0, file.scope) ==> Increasing(Numbers(AllLines(SegmentsOf(file))))
  {
    HunksKeepLines(file);
    GenuineParts(HunkLinesOf(file));
    AddHunksKeepLines([], HunkLinesOf(file), file.scope);
    if Ahead(Numbers(file.lines), 0, file.scope) {
      AddHunksSettled([], HunkLinesOf(file), file.scope);
    }
  }
}
