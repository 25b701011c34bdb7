/** What packing keeps: every line once and in order, the byte bound, whole definitions. */
module ChunkProperties {
  import opened Sequences
  import opened Diffs
  import opened Partition
  import opened Segments
  import opened Chunks

  // ---- Every line once, in order ----------------------------------------------------

  // The chunk's lines, without gap marks and notes.
  function LinesIn(items: seq<Item>): seq<DiffLine> {
    if items == [] then []
    else if items[0].Line? then [items[0].line] + LinesIn(items[1..])
    else LinesIn(items[1..])
  }

  lemma {:induction false} LinesInAppend(a: seq<Item>, b: seq<Item>)
    ensures LinesIn(a + b) == LinesIn(a) + LinesIn(b)
  {
    if a == [] {
      assert a + b == b;
    } else {
      assert (a + b)[1..] == a[1..] + b;
      LinesInAppend(a[1..], b);
    }
  }

  lemma {:induction false} LinesInShown(lines: seq<DiffLine>)
    ensures LinesIn(Shown(lines)) == lines
  {
    if lines != [] {
      LinesInShown(lines[1..]);
      assert Shown(lines)[1..] == Shown(lines[1..]);
    }
  }

  function Content(p: Packing): seq<DiffLine> {
    LinesIn(Flatten(p.chunks)) + LinesIn(p.pending)
  }

  lemma CloseKeepsContent(p: Packing)
    ensures Content(Closed(p)) == Content(p)
  {
    FlattenAppend(p.chunks, [p.pending]);
    assert Flatten([p.pending]) == p.pending + Flatten([p.pending][1..]) == p.pending;
    LinesInAppend(Flatten(p.chunks), p.pending);
    assert LinesIn([]) == [];
  }

  lemma GrowContent(p: Packing, items: seq<Item>)
    ensures Content(Packing(p.chunks, p.pending + items)) == Content(p) + LinesIn(items)
  {
    LinesInAppend(p.pending, items);
    Associative(LinesIn(Flatten(p.chunks)), LinesIn(p.pending), LinesIn(items));
  }

  lemma StepContent(p: Packing, lines: seq<DiffLine>, ranges: seq<(int, int)>, limit: int)
    requires lines != []
    ensures Content(SplitStep(p, lines, ranges, limit)) == Content(p) + [lines[0]]
  {
    CloseKeepsContent(p);
    var q := if StartsAfresh(p, lines, ranges, limit) then Closed(p) else p;
    CloseKeepsContent(q);
    GrowContent(q, [Line(lines[0])]);
    GrowContent(Closed(q), [Line(lines[0])]);
    assert LinesIn([Line(lines[0])]) == [lines[0]] + LinesIn([Line(lines[0])][1..]) == [lines[0]];
  }

  lemma {:induction false} SplitContent(p: Packing, lines: seq<DiffLine>, ranges: seq<(int, int)>, limit: int)
    ensures Content(Split(p, lines, ranges, limit)) == Content(p) + lines
    decreases lines
  {
    if lines == [] {
      assert Content(p) + [] == Content(p);
    } else {
      StepContent(p, lines, ranges, limit);
      SplitContent(SplitStep(p, lines, ranges, limit), lines[1..], ranges, limit);
      Associative(Content(p), [lines[0]], lines[1..]);
      assert [lines[0]] + lines[1..] == lines;
    }
  }

  lemma JoinedLines(pending: seq<Item>, previous: Option<int>, run: Run)
    ensures LinesIn(Joined(pending, previous, run)) == LinesIn(pending) + run.lines
  {
    var gap := if pending != [] && !Adjacent(previous, run) then [Gap] else [];
    assert LinesIn([Gap]) == LinesIn([Gap][1..]) == [] == LinesIn(gap);
    LinesInAppend(pending, gap);
    LinesInAppend(pending + gap, Shown(run.lines));
    LinesInShown(run.lines);
    assert LinesIn(pending) + [] == LinesIn(pending);
  }

  lemma RunContent(p: Packing, previous: Option<int>, run: Run, ranges: seq<(int, int)>, limit: int)
    ensures Content(AddRun(p, previous, run, ranges, limit)) == Content(p) + run.lines
  {
    if Size(Joined(p.pending, previous, run)) <= limit {
      JoinedLines(p.pending, previous, run);
      Associative(LinesIn(Flatten(p.chunks)), LinesIn(p.pending), run.lines);
    } else {
      CloseKeepsContent(p);
      SplitContent(if p.pending != [] then Closed(p) else p, run.lines, ranges, limit);
    }
  }

  lemma {:induction false} AllLinesFront(runs: seq<Run>)
    requires runs != []
    ensures AllLines(runs) == runs[0].lines + AllLines(runs[1..])
  {
    if |runs| == 1 {
      assert AllLines(runs[..0]) == [] && AllLines(runs[1..]) == [];
    } else {
      var front, last := runs[..|runs| - 1], runs[|runs| - 1];
      AllLinesFront(front);
      assert runs[1..][..|runs| - 2] == front[1..] && runs[1..][|runs| - 2] == last;
      Associative(runs[0].lines, AllLines(front[1..]), last.lines);
    }
  }

  lemma {:induction false} RunsContent(p: Packing, previous: Option<int>, runs: seq<Run>, ranges: seq<(int, int)>,
      limit: int)
    ensures Content(AddRuns(p, previous, runs, ranges, limit)) == Content(p) + AllLines(runs)
    decreases runs
  {
    if runs == [] {
      assert Content(p) + [] == Content(p);
    } else {
      RunContent(p, previous, runs[0], ranges, limit);
      RunsContent(AddRun(p, previous, runs[0], ranges, limit), Reached(previous, runs[0]), runs[1..], ranges, limit);
      AllLinesFront(runs);
      Associative(Content(p), runs[0].lines, AllLines(runs[1..]));
    }
  }

  lemma FinishedContent(p: Packing)
    ensures LinesIn(Flatten(Finished(p))) == Content(p)
  {
    CloseKeepsContent(p);
    assert Content(Closed(p)) == LinesIn(Flatten(p.chunks + [p.pending])) + [];
    assert Content(p) == LinesIn(Flatten(p.chunks)) + LinesIn(p.pending);
  }

  /** Concatenating a file's chunks and dropping gap marks and scope lines gives exactly the
      file's diff lines in order; and the new line numbers the chunks supply strictly
      increase when the scope names no line the diff carries. */
  lemma ChunksKeepDiff(file: ChangedFile, limit: int)
    requires Genuine(file.lines)
    ensures DiffLines(LinesIn(Flatten(ChunksOf(file, limit)))) == file.lines
    ensures Ahead(Numbers(file.lines), 0, file.scope) ==>
              Increasing(Numbers(LinesIn(Flatten(ChunksOf(file, limit)))))
  {
    SegmentsKeepDiff(file);
    var runs := SegmentsOf(file);
    if runs == [] {
      var notice := [Notice(file)];
      assert Flatten([notice]) == notice + Flatten([notice][1..]) == notice;
      assert LinesIn(notice) == LinesIn(notice[1..]) == [];
    } else {
      var p := AddRuns(Packing([], []), None, runs, file.symbolRanges, limit);
      RunsContent(Packing([], []), None, runs, file.symbolRanges, limit);
      FinishedContent(p);
      assert Content(Packing([], [])) == [] && [] + AllLines(runs) == AllLines(runs);
    }
  }

  // ---- The byte bound ----------------------------------------------------------------------

  // A chunk exceeds the limit only when it is a single line.
  predicate Bounded(items: seq<Item>, limit: int) { Size(items) <= limit || |items| == 1 }

  predicate AllBounded(p: Packing, limit: int) {
    (forall c <- p.chunks :: c != [] && Bounded(c, limit)) && Bounded(p.pending, limit)
  }

  lemma {:induction false} SplitBounded(p: Packing, lines: seq<DiffLine>, ranges: seq<(int, int)>, limit: int)
    requires AllBounded(p, limit) && limit >= 0
    ensures AllBounded(Split(p, lines, ranges, limit), limit)
    decreases lines
  {
    if lines != [] {
      SplitBounded(SplitStep(p, lines, ranges, limit), lines[1..], ranges, limit);
    }
  }

  lemma {:induction false} RunsBounded(p: Packing, previous: Option<int>, runs: seq<Run>, ranges: seq<(int, int)>,
      limit: int)
    requires AllBounded(p, limit) && limit >= 0
    ensures AllBounded(AddRuns(p, previous, runs, ranges, limit), limit)
    decreases runs
  {
    if runs != [] {
      var q := if p.pending != [] then Closed(p) else p;
      SplitBounded(q, runs[0].lines, ranges, limit);
      RunsBounded(AddRun(p, previous, runs[0], ranges, limit), Reached(previous, runs[0]), runs[1..], ranges, limit);
    }
  }

  /** Every chunk fits the limit unless it is one line that does not fit by itself. */
  lemma ChunksFit(file: ChangedFile, limit: int)
    requires limit >= 0
    ensures forall c <- ChunksOf(file, limit) :: c != [] && Bounded(c, limit)
  {
    RunsBounded(Packing([], []), None, SegmentsOf(file), file.symbolRanges, limit);
  }

  // ---- Whole definitions ------------------------------------------------------------------------

  predicate At(chunk: seq<Item>, part: seq<Item>, i: int) {
    0 <= i <= |chunk| - |part| && chunk[i..i + |part|] == part
  }

  ghost predicate Contains(chunk: seq<Item>, part: seq<Item>) {
    exists i :: At(chunk, part, i)
  }

  ghost predicate Holds(p: Packing, part: seq<Item>) {
    Contains(p.pending, part) || exists c <- p.chunks :: Contains(c, part)
  }

  lemma GrowingHolds(pending: seq<Item>, more: seq<Item>, part: seq<Item>)
    requires Contains(pending, part)
    ensures Contains(pending + more, part)
  {
    var i :| At(pending, part, i);
    assert At(pending + more, part, i);
  }

  lemma StepHolds(p: Packing, items: seq<Item>, part: seq<Item>)
    requires Holds(p, part)
    ensures Holds(Closed(p), part) || part == []
    ensures Holds(Packing(p.chunks, p.pending + items), part)
    ensures Holds(Packing(p.chunks + [p.pending], items), part)
  {
    var next := p.chunks + [p.pending];
    if Contains(p.pending, part) {
      GrowingHolds(p.pending, items, part);
      assert next[|p.chunks|] == p.pending && p.pending in next;
    } else {
      var c :| c in p.chunks && Contains(c, part);
      assert c in next;
    }
  }

  lemma {:induction false} SplitHolds(p: Packing, lines: seq<DiffLine>, ranges: seq<(int, int)>, limit: int,
      part: seq<Item>)
    requires Holds(p, part) && part != []
    ensures Holds(Split(p, lines, ranges, limit), part)
    decreases lines
  {
    if lines != [] {
      var q := if StartsAfresh(p, lines, ranges, limit) then Closed(p) else p;
      StepHolds(p, [], part);
      StepHolds(q, [Line(lines[0])], part);
      StepHolds(Closed(q), [Line(lines[0])], part);
      SplitHolds(AddLine(q, lines[0], limit), lines[1..], ranges, limit, part);
    }
  }

  lemma {:induction false} RunsHold(p: Packing, previous: Option<int>, runs: seq<Run>, ranges: seq<(int, int)>,
      limit: int, part: seq<Item>)
    requires Holds(p, part) && part != []
    ensures Holds(AddRuns(p, previous, runs, ranges, limit), part)
    decreases runs
  {
    if runs != [] {
      var run := runs[0];
      var gap := if p.pending != [] && !Adjacent(previous, run) then [Gap] else [];
      StepHolds(p, gap, part);
      StepHolds(Packing(p.chunks, p.pending + gap), Shown(run.lines), part);
      SplitHolds(if p.pending != [] then Closed(p) else p, run.lines, ranges, limit, part);
      RunsHold(AddRun(p, previous, run, ranges, limit), Reached(previous, run), runs[1..], ranges, limit, part);
    }
  }

  // How many leading lines belong to the definition that ends at `end`.
  function Extent(lines: seq<DiffLine>, end: int): (n: nat)
    ensures n <= |lines|
    ensures forall i | 0 <= i < n :: UpTo(lines[i], end)
    ensures n < |lines| ==> !UpTo(lines[n], end)
  {
    if lines == [] || !UpTo(lines[0], end) then 0 else 1 + Extent(lines[1..], end)
  }

  lemma {:induction false} SmallerDefinition(lines: seq<DiffLine>, inner: int, outer: int)
    requires inner <= outer
    ensures Cost(Definition(lines, inner)) <= Cost(Definition(lines, outer))
  {
    if lines != [] {
      SmallerDefinition(lines[1..], inner, outer);
      var line := [Line(lines[0])];
      CostAppend(line, Definition(lines[1..], inner));
      CostAppend(line, Definition(lines[1..], outer));
    }
  }

  // No definition that starts within the first `n` lines reaches beyond `end`.
  predicate Enclosed(lines: seq<DiffLine>, n: nat, ranges: seq<(int, int)>, end: int) {
    forall i | 0 <= i < n && i < |lines| :: forall e <- EndsAt(ranges, lines[i].newLine) :: e <= end
  }

  lemma RoomForLine(pending: seq<Item>, lines: seq<DiffLine>, ranges: seq<(int, int)>, limit: int, end: int)
    requires lines != [] && UpTo(lines[0], end) && Size(pending + Definition(lines, end)) <= limit
    requires forall e <- EndsAt(ranges, lines[0].newLine) :: e <= end
    ensures var ends := EndsAt(ranges, lines[0].newLine);
            ends != [] ==> Size(pending + Definition(lines, MaxOf(ends))) <= limit
    ensures Size(pending + [Line(lines[0])]) <= limit
    ensures Size((pending + [Line(lines[0])]) + Definition(lines[1..], end)) <= limit
  {
    var line, rest := [Line(lines[0])], Definition(lines[1..], end);
    Associative(pending, line, rest);
    CostAppend(pending, line + rest);
    CostAppend(line, rest);
    CostAppend(pending, line);
    var ends := EndsAt(ranges, lines[0].newLine);
    if ends != [] {
      SmallerDefinition(lines, MaxOf(ends), end);
      CostAppend(pending, Definition(lines, MaxOf(ends)));
    }
  }

  lemma ShownFront(lines: seq<DiffLine>, n: nat)
    requires 1 <= n <= |lines|
    ensures [Line(lines[0])] + Shown(lines[1..][..n - 1]) == Shown(lines[..n])
  {
  }

  lemma PendingGrows(pending: seq<Item>, lines: seq<DiffLine>, n: nat)
    requires 1 <= n <= |lines|
    ensures (pending + [Line(lines[0])]) + Shown(lines[1..][..n - 1]) == pending + Shown(lines[..n])
    ensures lines[1..][n - 1..] == lines[n..]
  {
    ShownFront(lines, n);
    Associative(pending, [Line(lines[0])], Shown(lines[1..][..n - 1]));
  }

  lemma EnclosedTail(lines: seq<DiffLine>, n: nat, ranges: seq<(int, int)>, end: int)
    requires lines != [] && 1 <= n && Enclosed(lines, n, ranges, end)
    ensures Enclosed(lines[1..], n - 1, ranges, end)
  {
    assert forall i | 0 <= i < |lines[1..]| :: lines[1..][i] == lines[i + 1];
  }

  lemma NothingPending(pending: seq<Item>, lines: seq<DiffLine>)
    ensures pending + Shown(lines[..0]) == pending && lines[0..] == lines
  {
  }

  lemma StepsTogether(p: Packing, lines: seq<DiffLine>, ranges: seq<(int, int)>, limit: int, end: int)
    requires p.pending != [] && Size(p.pending + Definition(lines, end)) <= limit
    requires Extent(lines, end) > 0 && Enclosed(lines, Extent(lines, end), ranges, end)
    ensures var q := Packing(p.chunks, p.pending + [Line(lines[0])]);
            Split(p, lines, ranges, limit) == Split(q, lines[1..], ranges, limit)
            && Size(q.pending + Definition(lines[1..], end)) <= limit
  {
    RoomForLine(p.pending, lines, ranges, limit, end);
    assert SplitStep(p, lines, ranges, limit) == Packing(p.chunks, p.pending + [Line(lines[0])]);
  }

  lemma {:induction false} StaysTogether(p: Packing, lines: seq<DiffLine>, ranges: seq<(int, int)>, limit: int,
      end: int)
    requires p.pending != [] && Size(p.pending + Definition(lines, end)) <= limit
    requires Enclosed(lines, Extent(lines, end), ranges, end)
    decreases lines
    ensures var n := Extent(lines, end);
            var q := Packing(p.chunks, p.pending + Shown(lines[..n]));
            Split(p, lines, ranges, limit) == Split(q, lines[n..], ranges, limit)
  {
    var n := Extent(lines, end);
    if n == 0 {
      NothingPending(p.pending, lines);
    } else {
      var q := Packing(p.chunks, p.pending + [Line(lines[0])]);
      StepsTogether(p, lines, ranges, limit, end);
      EnclosedTail(lines, n, ranges, end);
      StaysTogether(q, lines[1..], ranges, limit, end);
      PendingGrows(p.pending, lines, n);
      assert Extent(lines[1..], end) == n - 1;
      assert Packing(q.chunks, q.pending + Shown(lines[1..][..n - 1]))
        == Packing(p.chunks, p.pending + Shown(lines[..n]));
    }
  }

  lemma LastIsHeld(before: seq<Item>, part: seq<Item>)
    ensures At(before + part, part, |before|)
  {
  }

  lemma WholeAt(part: seq<Item>)
    ensures At(part, part, 0)
  {
  }

  // The definition's first line opens a chunk.
  lemma OpeningIsHeld(chunks: seq<seq<Item>>, lines: seq<DiffLine>, ranges: seq<(int, int)>, limit: int, end: int)
    requires lines != [] && UpTo(lines[0], end) && Size(Definition(lines, end)) <= limit
    requires Enclosed(lines, Extent(lines, end), ranges, end)
    ensures var packed := Split(Packing(chunks, [Line(lines[0])]), lines[1..], ranges, limit);
            Holds(packed, Shown(lines[..Extent(lines, end)]))
  {
    var n, line := Extent(lines, end), [Line(lines[0])];
    var part := Shown(lines[..n]);
    StaysTogether(Packing(chunks, line), lines[1..], ranges, limit, end);
    PendingGrows([], lines, n);
    assert [] + line == line && [] + part == part;
    WholeAt(part);
    SplitHolds(Packing(chunks, part), lines[1..][n - 1..], ranges, limit, part);
  }

  // The definition fits behind what is pending.
  lemma FollowingIsHeld(p: Packing, lines: seq<DiffLine>, ranges: seq<(int, int)>, limit: int, end: int)
    requires lines != [] && UpTo(lines[0], end) && p.pending != []
    requires Size(p.pending + Definition(lines, end)) <= limit
    requires Enclosed(lines, Extent(lines, end), ranges, end)
    ensures Holds(Split(p, lines, ranges, limit), Shown(lines[..Extent(lines, end)]))
  {
    var n := Extent(lines, end);
    var part := Shown(lines[..n]);
    StaysTogether(p, lines, ranges, limit, end);
    var q := Packing(p.chunks, p.pending + part);
    LastIsHeld(p.pending, part);
    SplitHolds(q, lines[n..], ranges, limit, part);
  }

  // What the definition theorem asks of the lines from the definition's first line on.
  predicate FitsAlone(lines: seq<DiffLine>, ranges: seq<(int, int)>, limit: int) {
    lines != []
    && var ends := EndsAt(ranges, lines[0].newLine);
       ends != []
       && var end := MaxOf(ends);
          UpTo(lines[0], end) && Size(Definition(lines, end)) <= limit
            && Enclosed(lines, Extent(lines, end), ranges, end)
  }

  function Whole(lines: seq<DiffLine>, ranges: seq<(int, int)>): seq<Item>
    requires lines != [] && EndsAt(ranges, lines[0].newLine) != []
  {
    Shown(lines[..Extent(lines, MaxOf(EndsAt(ranges, lines[0].newLine)))])
  }

  lemma DefinitionIsHeld(p: Packing, lines: seq<DiffLine>, ranges: seq<(int, int)>, limit: int)
    requires FitsAlone(lines, ranges, limit)
    ensures Holds(Split(p, lines, ranges, limit), Whole(lines, ranges)) && Whole(lines, ranges) != []
  {
    var end := MaxOf(EndsAt(ranges, lines[0].newLine));
    if p.pending == [] || StartsAfresh(p, lines, ranges, limit) {
      var chunks := if p.pending == [] then p.chunks else p.chunks + [p.pending];
      assert [] + [Line(lines[0])] == [Line(lines[0])];
      assert SplitStep(p, lines, ranges, limit) == Packing(chunks, [Line(lines[0])]);
      OpeningIsHeld(chunks, lines, ranges, limit, end);
    } else {
      FollowingIsHeld(p, lines, ranges, limit, end);
    }
  }

  lemma {:induction false} LaterDefinitionIsHeld(p: Packing, lines: seq<DiffLine>, k: nat, ranges: seq<(int, int)>,
      limit: int)
    requires k < |lines| && FitsAlone(lines[k..], ranges, limit)
    ensures Holds(Split(p, lines, ranges, limit), Whole(lines[k..], ranges)) && Whole(lines[k..], ranges) != []
    decreases k
  {
    if k == 0 {
      assert lines[0..] == lines;
      DefinitionIsHeld(p, lines, ranges, limit);
    } else {
      assert lines[1..][k - 1..] == lines[k..];
      LaterDefinitionIsHeld(SplitStep(p, lines, ranges, limit), lines[1..], k - 1, ranges, limit);
    }
  }

  lemma RunHoldsDefinition(p: Packing, previous: Option<int>, run: Run, k: nat, ranges: seq<(int, int)>, limit: int)
    requires k < |run.lines| && FitsAlone(run.lines[k..], ranges, limit)
    ensures Holds(AddRun(p, previous, run, ranges, limit), Whole(run.lines[k..], ranges))
    ensures Whole(run.lines[k..], ranges) != []
  {
    var whole := Whole(run.lines[k..], ranges);
    LaterDefinitionIsHeld(if p.pending != [] then Closed(p) else p, run.lines, k, ranges, limit);
    if Size(Joined(p.pending, previous, run)) <= limit {
      JoinedHolds(p.pending, previous, run, k, |whole|);
      assert whole == Shown(run.lines[k..][..|whole|]);
    }
  }

  lemma JoinedHolds(pending: seq<Item>, previous: Option<int>, run: Run, k: nat, n: nat)
    requires k + n <= |run.lines|
    ensures Contains(Joined(pending, previous, run), Shown(run.lines[k..][..n]))
  {
    var before := pending + if pending != [] && !Adjacent(previous, run) then [Gap] else [];
    assert Shown(run.lines)[k..k + n] == Shown(run.lines[k..][..n]);
    assert At(before + Shown(run.lines), Shown(run.lines[k..][..n]), |before| + k);
  }

  // The packing that the first `r` runs lead to.
  lemma {:induction false} RunsSplit(p: Packing, previous: Option<int>, runs: seq<Run>, r: nat,
      ranges: seq<(int, int)>, limit: int)
    returns (q: Packing, reached: Option<int>)
    requires r <= |runs|
    ensures AddRuns(p, previous, runs, ranges, limit) == AddRuns(q, reached, runs[r..], ranges, limit)
    decreases r
  {
    if r == 0 {
      assert runs[0..] == runs;
      q, reached := p, previous;
    } else {
      assert runs[1..][r - 1..] == runs[r..];
      q, reached := RunsSplit(AddRun(p, previous, runs[0], ranges, limit), Reached(previous, runs[0]), runs[1..], r - 1,
        ranges, limit);
    }
  }

  lemma RunsHoldDefinition(p: Packing, runs: seq<Run>, r: nat, k: nat, ranges: seq<(int, int)>, limit: int)
    requires r < |runs| && k < |runs[r].lines| && FitsAlone(runs[r].lines[k..], ranges, limit)
    ensures Holds(AddRuns(p, None, runs, ranges, limit), Whole(runs[r].lines[k..], ranges))
  {
    var run, part := runs[r], Whole(runs[r].lines[k..], ranges);
    var q, reached := RunsSplit(p, None, runs, r, ranges, limit);
    RunHoldsDefinition(q, reached, run, k, ranges, limit);
    assert runs[r..][0] == run && runs[r..][1..] == runs[r + 1..];
    RunsHold(AddRun(q, reached, run, ranges, limit), Reached(reached, run), runs[r + 1..], ranges, limit, part);
  }

  // Ranges that start inside another end inside it.
  predicate Nested(ranges: seq<(int, int)>) {
    forall a, b | a in ranges && b in ranges && a.0 < b.0 <= a.1 :: b.1 <= a.1
  }

  lemma {:induction false} EndsAreRanges(ranges: seq<(int, int)>, number: Option<int>)
    ensures forall e <- EndsAt(ranges, number) :: number.Some? && (number.value, e) in ranges
  {
    if ranges != [] {
      EndsAreRanges(ranges[1..], number);
    }
  }

  lemma {:induction false} NumbersAt(lines: seq<DiffLine>, i: nat)
    requires i < |lines| && lines[i].newLine.Some?
    ensures lines[i].newLine.value in Numbers(lines)
  {
    if i > 0 {
      NumbersAt(lines[1..], i - 1);
    }
  }

  // Within a run, numbers follow the first line's number.
  lemma LaterNumbers(lines: seq<DiffLine>, i: nat)
    requires 0 < i < |lines| && lines[0].newLine.Some? && lines[i].newLine.Some?
    requires Increasing(Numbers(lines))
    ensures lines[i].newLine.value > lines[0].newLine.value
  {
    NumbersAt(lines[1..], i - 1);
    var ns := Numbers(lines);
    assert ns == [lines[0].newLine.value] + Numbers(lines[1..]);
    var j :| 0 <= j < |Numbers(lines[1..])| && Numbers(lines[1..])[j] == lines[i].newLine.value;
    assert ns[j + 1] == lines[i].newLine.value;
  }

  lemma NestedEncloses(lines: seq<DiffLine>, ranges: seq<(int, int)>)
    requires lines != [] && EndsAt(ranges, lines[0].newLine) != [] && Nested(ranges) && Increasing(Numbers(lines))
    ensures var end := MaxOf(EndsAt(ranges, lines[0].newLine)); Enclosed(lines, Extent(lines, end), ranges, end)
  {
    var end := MaxOf(EndsAt(ranges, lines[0].newLine));
    EndsAreRanges(ranges, lines[0].newLine);
    forall i, e | 0 <= i < Extent(lines, end) && e in EndsAt(ranges, lines[i].newLine)
      ensures e <= end
    {
      EndsAreRanges(ranges, lines[i].newLine);
      if i > 0 {
        LaterNumbers(lines, i);
        var outer, inner := (lines[0].newLine.value, end), (lines[i].newLine.value, e);
        assert outer in ranges && inner in ranges;
        assert UpTo(lines[i], end);
      }
    }
  }

  lemma IncreasingParts(a: seq<int>, b: seq<int>)
    requires Increasing(a + b)
    ensures Increasing(a) && Increasing(b)
  {
    assert forall i | 0 <= i < |a| :: (a + b)[i] == a[i];
    assert forall i | 0 <= i < |b| :: (a + b)[|a| + i] == b[i];
  }

  lemma SuffixNumbersIncrease(lines: seq<DiffLine>, k: nat)
    requires k <= |lines| && Increasing(Numbers(lines))
    ensures Increasing(Numbers(lines[k..]))
  {
    NumbersAppend(lines[..k], lines[k..]);
    assert lines[..k] + lines[k..] == lines;
    IncreasingParts(Numbers(lines[..k]), Numbers(lines[k..]));
  }

  // A run's numbers are a part of all the runs' numbers.
  lemma {:induction false} RunNumbers(runs: seq<Run>, r: nat) returns (before: seq<int>, after: seq<int>)
    requires r < |runs|
    ensures Numbers(AllLines(runs)) == before + Numbers(runs[r].lines) + after
  {
    var front, last := runs[..|runs| - 1], runs[|runs| - 1].lines;
    assert AllLines(runs) == AllLines(front) + last;
    NumbersAppend(AllLines(front), last);
    if r < |front| {
      var rest;
      before, rest := RunNumbers(front, r);
      after := rest + Numbers(last);
      Associative(before + Numbers(runs[r].lines), rest, Numbers(last));
    } else {
      before, after := Numbers(AllLines(front)), [];
      assert before + Numbers(last) + [] == before + Numbers(last);
    }
  }

  lemma RunNumbersIncrease(runs: seq<Run>, r: nat)
    requires r < |runs|
    ensures Increasing(Numbers(AllLines(runs))) ==> Increasing(Numbers(runs[r].lines))
  {
    var before, after := RunNumbers(runs, r);
    if Increasing(Numbers(AllLines(runs))) {
      IncreasingParts(before + Numbers(runs[r].lines), after);
      IncreasingParts(before, Numbers(runs[r].lines));
    }
  }

  /** A definition that starts at a line of a run, and that the code measures as fitting a
      fresh chunk, is shown whole in one chunk: packing never splits it, whatever precedes it
      and whatever definitions start inside it. */
  lemma DefinitionsStayWhole(file: ChangedFile, limit: int, r: nat, k: nat)
    requires Genuine(file.lines) && Ahead(Numbers(file.lines), 0, file.scope) && Nested(file.symbolRanges)
    requires r < |SegmentsOf(file)| && k < |SegmentsOf(file)[r].lines|
    requires var lines := SegmentsOf(file)[r].lines[k..];
             var ends := EndsAt(file.symbolRanges, lines[0].newLine);
             ends != [] && UpTo(lines[0], MaxOf(ends)) && Size(Definition(lines, MaxOf(ends))) <= limit
    ensures exists chunk <- ChunksOf(file, limit) ::
              Contains(chunk, Whole(SegmentsOf(file)[r].lines[k..], file.symbolRanges))
  {
    var runs, ranges := SegmentsOf(file), file.symbolRanges;
    var lines := runs[r].lines[k..];
    SegmentsKeepDiff(file);
    RunNumbersIncrease(runs, r);
    SuffixNumbersIncrease(runs[r].lines, k);
    NestedEncloses(lines, ranges);
    RunsHoldDefinition(Packing([], []), runs, r, k, ranges, limit);
    var p := AddRuns(Packing([], []), None, runs, ranges, limit);
    if Contains(p.pending, Whole(lines, ranges)) {
      var i :| At(p.pending, Whole(lines, ranges), i);
      assert p.pending != [];
      assert Finished(p)[|p.chunks|] == p.pending;
    } else {
      var c :| c in p.chunks && Contains(c, Whole(lines, ranges));
      assert c in Finished(p);
    }
  }
}
