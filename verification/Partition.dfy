/** Cutting one changed file into byte-bounded chunks of displayed lines. */
module Partition {
  import opened Sequences
  import opened Diffs

  // ---- Displayed lines and their size ------------------------------------------------

  // A line of a chunk: a diff or scope line, the mark of omitted lines, or a note.
  datatype Item = Line(line: DiffLine) | Gap | Remark(text: string)

  function PadTo5(s: string): string
    decreases 5 - |s|
  {
    if |s| >= 5 then s else PadTo5(" " + s)
  }

  function Sign(kind: Kind): string {
    match kind case Added => "+" case Removed => "-" case Unchanged => " "
  }

  function Number(n: int): string {
    if n < 0 then "-" + Digits(-n) else Digits(n)
  }

  function Render(line: DiffLine): string {
    PadTo5(if line.newLine.None? then "" else Number(line.newLine.value)) + " " + Sign(line.kind) + " " + line.text
  }

  function Display(item: Item): string {
    match item
    case Line(line) => Render(line)
    case Gap => "  ..."
    case Remark(text) => text
  }

  // The length of the UTF-8 form.
  function Bytes(s: string): nat {
    if s == [] then 0
    else
      var c := s[0] as int;
      (if c < 0x80 then 1 else if c < 0x800 then 2 else if c < 0x1_0000 then 3 else 4) + Bytes(s[1..])
  }

  function Join(items: seq<Item>): string {
    if items == [] then ""
    else if |items| == 1 then Display(items[0])
    else Display(items[0]) + "\n" + Join(items[1..])
  }

  // Each item with the line break that follows it.
  function Cost(items: seq<Item>): nat {
    if items == [] then 0 else Bytes(Display(items[0])) + 1 + Cost(items[1..])
  }

  function Size(items: seq<Item>): nat {
    if items == [] then 0 else Cost(items) - 1
  }

  lemma {:induction false} BytesAppend(a: string, b: string)
    ensures Bytes(a + b) == Bytes(a) + Bytes(b)
  {
    if a == [] {
      assert a + b == b;
    } else {
      assert (a + b)[1..] == a[1..] + b;
      BytesAppend(a[1..], b);
    }
  }

  /** `Size` is the byte length of the chunk as it is sent. */
  lemma {:induction false} SizeIsJoinedLength(items: seq<Item>)
    ensures Size(items) == Bytes(Join(items))
  {
    if |items| == 1 {
      assert Cost(items[1..]) == 0;
    } else if |items| > 1 {
      SizeIsJoinedLength(items[1..]);
      BytesAppend(Display(items[0]) + "\n", Join(items[1..]));
      BytesAppend(Display(items[0]), "\n");
      assert Bytes("\n"[1..]) == 0;
    }
  }

  lemma {:induction false} CostAppend(a: seq<Item>, b: seq<Item>)
    ensures Cost(a + b) == Cost(a) + Cost(b)
  {
    if a == [] {
      assert a + b == b;
    } else {
      assert (a + b)[1..] == a[1..] + b;
      CostAppend(a[1..], b);
    }
  }

  // ---- Splitting the diff into hunks ----------------------------------------------------

  function OrZero(count: Option<int>): int { if count.None? then 0 else count.value }

  // How many lines a hunk with these counts takes.
  function Taken(lines: seq<DiffLine>, oldLeft: int, newLeft: int): (n: nat)
    ensures n <= |lines|
  {
    if lines == [] || (oldLeft <= 0 && newLeft <= 0) then 0
    else
      1 + Taken(lines[1..],
                if lines[0].kind.Added? then oldLeft else oldLeft - 1,
                if lines[0].kind.Removed? then newLeft else newLeft - 1)
  }

  // One part per hunk, then whatever is left.
  function Parts(hunks: seq<Hunk>, lines: seq<DiffLine>): seq<seq<DiffLine>> {
    if hunks == [] then [lines]
    else
      var n := Taken(lines, OrZero(hunks[0].oldLines), OrZero(hunks[0].newLines));
      [lines[..n]] + Parts(hunks[1..], lines[n..])
  }

  function NonEmpty(parts: seq<seq<DiffLine>>): seq<seq<DiffLine>> {
    Filter((h: seq<DiffLine>) => h != [], parts)
  }

  function HunkLinesOf(file: ChangedFile): seq<seq<DiffLine>> {
    NonEmpty(Parts(file.hunks, file.lines))
  }

  // The end of the hunk that starts at `start`.
  method TakeHunk(lines: seq<DiffLine>, start: nat, hunk: Hunk) returns (offset: nat)
    requires start <= |lines|
    ensures offset == start + Taken(lines[start..], OrZero(hunk.oldLines), OrZero(hunk.newLines)) <= |lines|
  {
    var oldLeft, newLeft := OrZero(hunk.oldLines), OrZero(hunk.newLines);
    offset := start;
    while offset < |lines| && (oldLeft > 0 || newLeft > 0)
      invariant start <= offset <= |lines|
      invariant offset + Taken(lines[offset..], oldLeft, newLeft)
             == start + Taken(lines[start..], OrZero(hunk.oldLines), OrZero(hunk.newLines))
    {
      assert lines[offset..][1..] == lines[offset + 1..];
      if !lines[offset].kind.Added? {
        oldLeft := oldLeft - 1;
      }
      if !lines[offset].kind.Removed? {
        newLeft := newLeft - 1;
      }
      offset := offset + 1;
    }
  }

  lemma PartsStep(done: seq<seq<DiffLine>>, hunks: seq<Hunk>, lines: seq<DiffLine>, n: nat)
    requires hunks != [] && n == Taken(lines, OrZero(hunks[0].oldLines), OrZero(hunks[0].newLines))
    ensures done + Parts(hunks, lines) == (done + [lines[..n]]) + Parts(hunks[1..], lines[n..])
  {
  }

  lemma NonEmptyLast(parts: seq<seq<DiffLine>>, last: seq<DiffLine>)
    ensures NonEmpty(parts + [last]) == if last == [] then NonEmpty(parts) else NonEmpty(parts) + [last]
  {
    FilterAppend((h: seq<DiffLine>) => h != [], parts, [last]);
    FilterOne((h: seq<DiffLine>) => h != [], last);
  }

  method HunkLines(file: ChangedFile) returns (hunks: seq<seq<DiffLine>>)
    ensures hunks == HunkLinesOf(file)
  {
    var lines, parts, offset := file.lines, [], 0;
    for i := 0 to |file.hunks|
      invariant 0 <= offset <= |lines|
      invariant parts + Parts(file.hunks[i..], lines[offset..]) == Parts(file.hunks, lines)
    {
      var start := offset;
      offset := TakeHunk(lines, start, file.hunks[i]);
      PartsStep(parts, file.hunks[i..], lines[start..], offset - start);
      assert lines[start..][..offset - start] == lines[start..offset]
        && lines[start..][offset - start..] == lines[offset..];
      assert file.hunks[i..][1..] == file.hunks[i + 1..];
      parts := parts + [lines[start..offset]];
    }
    NonEmptyLast(parts, lines[offset..]);
    if offset < |lines| {
      parts := parts + [lines[offset..]];
    }
    return NonEmpty(parts);
  }

  lemma {:induction false} FlattenNonEmpty(parts: seq<seq<DiffLine>>)
    ensures Flatten(NonEmpty(parts)) == Flatten(parts)
  {
    if parts != [] {
      FlattenNonEmpty(parts[1..]);
      if parts[0] == [] {
        assert parts[0] + Flatten(parts[1..]) == Flatten(parts[1..]);
      } else {
        assert NonEmpty(parts)[1..] == NonEmpty(parts[1..]);
      }
    }
  }

  lemma {:induction false} PartsKeepLines(hunks: seq<Hunk>, lines: seq<DiffLine>)
    ensures Flatten(Parts(hunks, lines)) == lines
  {
    if hunks == [] {
      assert Flatten([lines][1..]) == [];
    } else {
      var n := Taken(lines, OrZero(hunks[0].oldLines), OrZero(hunks[0].newLines));
      PartsKeepLines(hunks[1..], lines[n..]);
      var rest := Parts(hunks[1..], lines[n..]);
      assert Flatten([lines[..n]] + rest) == lines[..n] + Flatten(rest) by {
        assert ([lines[..n]] + rest)[1..] == rest;
      }
    }
  }

  /** Whatever the headers say, splitting neither loses nor repeats a line. */
  lemma HunksKeepLines(file: ChangedFile)
    ensures Flatten(HunkLinesOf(file)) == file.lines
  {
    FlattenNonEmpty(Parts(file.hunks, file.lines));
    PartsKeepLines(file.hunks, file.lines);
  }

  lemma {:induction false} TakesItsEdits(edits: seq<Edit>, o: nat, n: nat, rest: seq<DiffLine>)
    ensures var lines := EditLines(edits, o, n);
            Taken(lines + rest, |OldText(edits)|, |NewText(edits)|) == |lines|
  {
    var lines := EditLines(edits, o, n);
    if edits != [] {
      var o' := if edits[0].Insert? then o else o + 1;
      var n' := if edits[0].Delete? then n else n + 1;
      TakesItsEdits(edits[1..], o', n', rest);
      assert (lines + rest)[1..] == EditLines(edits[1..], o', n') + rest;
    }
  }

  // The lines each hunk of a script shows.
  function ChangesOf(script: Script, o: nat, n: nat): seq<seq<DiffLine>> {
    match script
    case Rest(_) => [[]]
    case Change(gap, edits, rest) =>
      [EditLines(edits, o + |gap|, n + |gap|)]
      + ChangesOf(rest, o + |gap| + |OldText(edits)|, n + |gap| + |NewText(edits)|)
  }

  /** With truthful headers every hunk gets exactly its own lines. */
  lemma {:induction false} HunksAreChanges(script: Script, o: nat, n: nat)
    ensures Parts(HunksOf(script, o, n), LinesOf(script, o, n)) == ChangesOf(script, o, n)
  {
    match script
    case Rest(_) =>
    case Change(gap, edits, rest) =>
      var o', n' := o + |gap| + |OldText(edits)|, n + |gap| + |NewText(edits)|;
      var mine, others := EditLines(edits, o + |gap|, n + |gap|), LinesOf(rest, o', n');
      TakesItsEdits(edits, o + |gap|, n + |gap|, others);
      HunksAreChanges(rest, o', n');
      assert (mine + others)[..|mine|] == mine && (mine + others)[|mine|..] == others;
      assert HunksOf(script, o, n)[1..] == HunksOf(rest, o', n');
  }
}
