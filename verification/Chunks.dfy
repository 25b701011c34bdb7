/** Packing runs into chunks that fit the unit budget. */
module Chunks {
  import opened Sequences
  import opened Diffs
  import opened Partition
  import opened Segments

  function Shown(lines: seq<DiffLine>): (items: seq<Item>)
    ensures |items| == |lines| && forall i | 0 <= i < |items| :: items[i] == Line(lines[i])
  {
    seq(|lines|, i requires 0 <= i < |lines| => Line(lines[i]))
  }

  // The last lines of the definitions that start at this new line number.
  function EndsAt(ranges: seq<(int, int)>, number: Option<int>): seq<int> {
    if ranges == [] then []
    else if number == Some(ranges[0].0) then [ranges[0].1] + EndsAt(ranges[1..], number)
    else EndsAt(ranges[1..], number)
  }

  function MaxOf(ns: seq<int>): (m: int)
    requires ns != []
    ensures m in ns && forall n <- ns :: n <= m
  {
    if |ns| == 1 then ns[0]
    else
      var rest := MaxOf(ns[1..]);
      assert ns == [ns[0]] + ns[1..];
      if ns[0] > rest then ns[0] else rest
  }

  predicate UpTo(line: DiffLine, end: int) { line.newLine.None? || line.newLine.value <= end }

  // The code's measure of a definition: every later line of the run numbered up to its end,
  // and every later line without a number.
  function Definition(lines: seq<DiffLine>, end: int): seq<Item> {
    if lines == [] then []
    else if UpTo(lines[0], end) then [Line(lines[0])] + Definition(lines[1..], end)
    else Definition(lines[1..], end)
  }

  datatype Packing = Packing(chunks: seq<seq<Item>>, pending: seq<Item>)

  function Closed(p: Packing): Packing {
    Packing(p.chunks + [p.pending], [])
  }

  // A definition that fits a fresh chunk but not the pending one starts afresh.
  predicate StartsAfresh(p: Packing, lines: seq<DiffLine>, ranges: seq<(int, int)>, limit: int)
    requires lines != []
  {
    var ends := EndsAt(ranges, lines[0].newLine);
    p.pending != [] && ends != []
    && var symbol := Definition(lines, MaxOf(ends)); Size(symbol) <= limit < Size(p.pending + symbol)
  }

  function AddLine(p: Packing, line: DiffLine, limit: int): Packing {
    var q := if p.pending != [] && Size(p.pending + [Line(line)]) > limit then Closed(p) else p;
    Packing(q.chunks, q.pending + [Line(line)])
  }

  function SplitStep(p: Packing, lines: seq<DiffLine>, ranges: seq<(int, int)>, limit: int): Packing
    requires lines != []
  {
    AddLine(if StartsAfresh(p, lines, ranges, limit) then Closed(p) else p, lines[0], limit)
  }

  function Split(p: Packing, lines: seq<DiffLine>, ranges: seq<(int, int)>, limit: int): Packing
    decreases lines
  {
    if lines == [] then p else Split(SplitStep(p, lines, ranges, limit), lines[1..], ranges, limit)
  }

  predicate Adjacent(previous: Option<int>, run: Run) {
    previous.Some? && run.first.Some? && previous.value + 1 == run.first.value
  }

  function Joined(pending: seq<Item>, previous: Option<int>, run: Run): seq<Item> {
    pending + (if pending != [] && !Adjacent(previous, run) then [Gap] else []) + Shown(run.lines)
  }

  function AddRun(p: Packing, previous: Option<int>, run: Run, ranges: seq<(int, int)>, limit: int): Packing {
    var joined := Joined(p.pending, previous, run);
    if Size(joined) <= limit then Packing(p.chunks, joined)
    else Split(if p.pending != [] then Closed(p) else p, run.lines, ranges, limit)
  }

  function Reached(previous: Option<int>, run: Run): Option<int> {
    if run.last.Some? then run.last else previous
  }

  function AddRuns(p: Packing, previous: Option<int>, runs: seq<Run>, ranges: seq<(int, int)>, limit: int): Packing
    decreases runs
  {
    if runs == [] then p
    else AddRuns(AddRun(p, previous, runs[0], ranges, limit), Reached(previous, runs[0]), runs[1..], ranges, limit)
  }

  function Finished(p: Packing): seq<seq<Item>> {
    if p.pending != [] then p.chunks + [p.pending] else p.chunks
  }

  function Notice(file: ChangedFile): Item {
    Remark(file.path + ": binary or rename-only change; no textual hunks")
  }

  function ChunksOf(file: ChangedFile, limit: int): seq<seq<Item>> {
    var runs := SegmentsOf(file);
    if runs == [] then [[Notice(file)]]
    else Finished(AddRuns(Packing([], []), None, runs, file.symbolRanges, limit))
  }

  // ---- The loops -------------------------------------------------------------------------

  method SplitRun(p: Packing, lines: seq<DiffLine>, ranges: seq<(int, int)>, limit: int) returns (q: Packing)
    ensures q == Split(p, lines, ranges, limit)
  {
    var chunks, pending := p.chunks, p.pending;
    for position := 0 to |lines|
      invariant Split(Packing(chunks, pending), lines[position..], ranges, limit) == Split(p, lines, ranges, limit)
    {
      assert lines[position..][1..] == lines[position + 1..];
      var line := lines[position];
      var ends := EndsAt(ranges, line.newLine);
      if pending != [] && ends != [] {
        var symbol := Definition(lines[position..], MaxOf(ends));
        if Size(symbol) <= limit < Size(pending + symbol) {
          chunks, pending := chunks + [pending], [];
        }
      }
      if pending != [] && Size(pending + [Line(line)]) > limit {
        chunks, pending := chunks + [pending], [];
      }
      pending := pending + [Line(line)];
    }
    return Packing(chunks, pending);
  }

  method FileChunks(file: ChangedFile, limit: int) returns (chunks: seq<seq<Item>>)
    ensures chunks == ChunksOf(file, limit)
  {
    var runs := SegmentRuns(file);
    if runs == [] {
      return [[Notice(file)]];
    }
    var p, previous := Packing([], []), None;
    for i := 0 to |runs|
      invariant AddRuns(p, previous, runs[i..], file.symbolRanges, limit)
             == AddRuns(Packing([], []), None, runs, file.symbolRanges, limit)
    {
      assert runs[i..][1..] == runs[i + 1..];
      var run := runs[i];
      var joined := Joined(p.pending, previous, run);
      previous := Reached(previous, run);
      if Size(joined) <= limit {
        p := Packing(p.chunks, joined);
        continue;
      }
      if p.pending != [] {
        p := Closed(p);
      }
      p := SplitRun(p, run.lines, file.symbolRanges, limit);
    }
    return Finished(p);
  }
}
