/** Following published findings through a diff, and giving re-reported claims the
    identity they were published under. */
module Rereview {
  import opened Sequences
  import opened Diffs

  // The new number of the first context line shown for old line `number`.
  function ShownAs(lines: seq<DiffLine>, number: int): Option<int> {
    if lines == [] then None
    else if lines[0].kind.Unchanged? && lines[0].oldLine == Some(number) then lines[0].newLine
    else ShownAs(lines[1..], number)
  }

  // `x or 1`: an absent or zero length counts as one line.
  function OrOne(count: Option<int>): int {
    if count.None? || count.value == 0 then 1 else count.value
  }

  function OffsetOf(hunks: seq<Hunk>, number: int, offset: int): int {
    if hunks == [] then offset
    else
      var h := hunks[0];
      if h.oldStart.None? || h.newStart.None? then OffsetOf(hunks[1..], number, offset)
      else
        var oldAfter := h.oldStart.value + OrOne(h.oldLines);
        var newAfter := h.newStart.value + OrOne(h.newLines);
        OffsetOf(hunks[1..], number, if number >= oldAfter then newAfter - oldAfter else offset)
  }

  function FollowOf(number: int, file: ChangedFile): int {
    var shown := ShownAs(file.lines, number);
    if shown.Some? then shown.value else Max(1, number + OffsetOf(file.hunks, number, 0))
  }

  method Follow(number: int, file: Option<ChangedFile>) returns (line: int)
    requires file.Some? ==> forall l <- file.value.lines :: l.kind.Unchanged? ==> l.newLine.Some?
    ensures line == if file.None? then number else FollowOf(number, file.value)
  {
    if file.None? {
      return number;
    }
    var lines, hunks := file.value.lines, file.value.hunks;
    for i := 0 to |lines|
      invariant ShownAs(lines, number) == ShownAs(lines[i..], number)
    {
      if lines[i].kind.Unchanged? && lines[i].oldLine == Some(number) {
        return lines[i].newLine.value;
      }
      assert lines[i..][1..] == lines[i + 1..];
    }
    var offset := 0;
    for i := 0 to |hunks|
      invariant OffsetOf(hunks, number, 0) == OffsetOf(hunks[i..], number, offset)
    {
      assert hunks[i..][1..] == hunks[i + 1..];
      var hunk := hunks[i];
      if hunk.oldStart.None? || hunk.newStart.None? {
        continue;
      }
      var oldAfter := hunk.oldStart.value + OrOne(hunk.oldLines);
      var newAfter := hunk.newStart.value + OrOne(hunk.newLines);
      if number >= oldAfter {
        offset := newAfter - oldAfter;
      }
    }
    return Max(1, number + offset);
  }

  // ---- Following agrees with the edit script -------------------------------------------

  // A hunk shows only old lines of its own span.
  lemma {:induction false} NotShownInEdits(edits: seq<Edit>, o: nat, n: nat, number: int, tail: seq<DiffLine>)
    requires number <= o || number > o + |OldText(edits)|
    ensures ShownAs(EditLines(edits, o, n) + tail, number) == ShownAs(tail, number)
  {
    var lines := EditLines(edits, o, n) + tail;
    if edits == [] {
      assert lines == tail;
    } else {
      var o' := if edits[0].Insert? then o else o + 1;
      var n' := if edits[0].Delete? then n else n + 1;
      NotShownInEdits(edits[1..], o', n', number, tail);
      assert lines[1..] == EditLines(edits[1..], o', n') + tail;
    }
  }

  // The diff shows nothing of a line that precedes the rest of the script.
  lemma {:induction false} NotShownEarlier(script: Script, o: nat, n: nat, number: int)
    requires number <= o || (script.Change? && number <= o + |script.gap|)
    ensures ShownAs(LinesOf(script, o, n), number) == None
  {
    match script
    case Rest(_) =>
    case Change(gap, edits, rest) =>
      var o', n' := o + |gap| + |OldText(edits)|, n + |gap| + |NewText(edits)|;
      NotShownEarlier(rest, o', n', number);
      NotShownInEdits(edits, o + |gap|, n + |gap|, number, LinesOf(rest, o', n'));
  }

  lemma {:induction false} NotMovedEarlier(script: Script, o: nat, n: nat, number: int, offset: int)
    requires number <= o || (script.Change? && number <= o + |script.gap|)
    ensures OffsetOf(HunksOf(script, o, n), number, offset) == offset
  {
    match script
    case Rest(_) =>
    case Change(gap, edits, rest) =>
      NotMovedEarlier(rest, o + |gap| + |OldText(edits)|, n + |gap| + |NewText(edits)|, number, offset);
  }

  lemma {:induction false} ShownInEdits(edits: seq<Edit>, o: nat, n: nat, k: nat, was: int, tail: seq<DiffLine>)
    requires 1 <= k <= |OldText(edits)| && ShownAs(tail, o + k) == None
    ensures ShownAs(EditLines(edits, o, n) + tail, o + k)
         == match PlaceInEdits(edits, k, n, was) case Survives(line) => Some(line) case Deleted(_) => None
  {
    var lines := EditLines(edits, o, n) + tail;
    var o' := if edits[0].Insert? then o else o + 1;
    var n' := if edits[0].Delete? then n else n + 1;
    assert lines[1..] == EditLines(edits[1..], o', n') + tail;
    if edits[0].Insert? {
      ShownInEdits(edits[1..], o', n', k, was, tail);
    } else if k > 1 {
      ShownInEdits(edits[1..], o', n', k - 1, was, tail);
    } else {
      NotShownInEdits(edits[1..], o', n', o + 1, tail);
    }
  }

  // Where line `k` would be if its own hunk had not touched it.
  function Drift(script: Script, k: nat, n: nat): int
    requires k >= 1
  {
    match script
    case Rest(_) => n + k
    case Change(gap, edits, rest) =>
      var after := |gap| + |OldText(edits)|;
      if k <= after then n + k else Drift(rest, k - after, n + |gap| + |NewText(edits)|)
  }

  // With `o` old and `n` new lines out, the offset so far is their difference.
  lemma {:induction false} OffsetIsDrift(script: Script, o: nat, n: nat, k: nat)
    requires k >= 1
    ensures o + k + OffsetOf(HunksOf(script, o, n), o + k, n - o) == Drift(script, k, n) >= 1
  {
    match script
    case Rest(_) =>
    case Change(gap, edits, rest) =>
      var after := |gap| + |OldText(edits)|;
      if k <= after {
        NotMovedEarlier(rest, o + after, n + |gap| + |NewText(edits)|, o + k, n - o);
      } else {
        OffsetIsDrift(rest, o + after, n + |gap| + |NewText(edits)|, k - after);
      }
  }

  // An old line not shown is where its drift takes it, or gone.
  predicate ShownRight(shown: Option<int>, place: Place, drift: int) {
    match shown
    case Some(line) => place == Survives(line)
    case None => place == Survives(drift) || place == Deleted(drift)
  }

  lemma ShownInHunk(edits: seq<Edit>, o: nat, n: nat, k: nat, drift: int, tail: seq<DiffLine>)
    requires 1 <= k <= |OldText(edits)| && ShownAs(tail, o + k) == None
    ensures ShownRight(ShownAs(EditLines(edits, o, n) + tail, o + k), PlaceInEdits(edits, k, n, drift), drift)
  {
    ShownInEdits(edits, o, n, k, drift, tail);
    EditsKeepText(edits, k, n, drift);
  }

  lemma ShownInFirst(gap: seq<string>, edits: seq<Edit>, rest: Script, o: nat, n: nat, k: nat)
    requires |gap| < k <= |gap| + |OldText(edits)|
    ensures var script := Change(gap, edits, rest);
            ShownRight(ShownAs(LinesOf(script, o, n), o + k), PlaceOf(script, k, n), Drift(script, k, n))
  {
    var o', n' := o + |gap| + |OldText(edits)|, n + |gap| + |NewText(edits)|;
    FirstHunk(gap, edits, rest, o, n, k);
    NotShownEarlier(rest, o', n', o + k);
    ShownInHunk(edits, o + |gap|, n + |gap|, k - |gap|, n + k, LinesOf(rest, o', n'));
  }

  // What a line of the first hunk depends on.
  lemma FirstHunk(gap: seq<string>, edits: seq<Edit>, rest: Script, o: nat, n: nat, k: nat)
    requires |gap| < k <= |gap| + |OldText(edits)|
    ensures var script := Change(gap, edits, rest);
            && LinesOf(script, o, n) == EditLines(edits, o + |gap|, n + |gap|)
                                        + LinesOf(rest, o + |gap| + |OldText(edits)|, n + |gap| + |NewText(edits)|)
            && PlaceOf(script, k, n) == PlaceInEdits(edits, k - |gap|, n + |gap|, n + k)
            && Drift(script, k, n) == n + k
  {
  }

  // The diff shows the surviving lines of hunks at their places, and no others.
  lemma {:induction false} ShownIsPlace(script: Script, o: nat, n: nat, k: nat)
    requires k >= 1
    ensures ShownRight(ShownAs(LinesOf(script, o, n), o + k), PlaceOf(script, k, n), Drift(script, k, n))
  {
    match script
    case Rest(_) =>
    case Change(gap, edits, rest) =>
      var after := |gap| + |OldText(edits)|;
      var o', n' := o + after, n + |gap| + |NewText(edits)|;
      if k <= |gap| {
        NotShownEarlier(script, o, n, o + k);
      } else if k <= after {
        ShownInFirst(gap, edits, rest, o, n, k);
      } else {
        NotShownInEdits(edits, o + |gap|, n + |gap|, o + k, LinesOf(rest, o', n'));
        ShownIsPlace(rest, o', n', k - after);
      }
  }

  /** Every old line that survives is followed to exactly its place in the new file, whether
      the diff shows it or not; a removed line is followed to its old place, shifted by the
      changes before its hunk. */
  lemma FollowAgreesWithScript(file: ChangedFile, script: Script, number: nat)
    requires Describes(file, script) && number >= 1
    ensures FollowOf(number, file)
         == match PlaceOf(script, number, 0) case Survives(line) => line case Deleted(was) => was
  {
    OffsetIsDrift(script, 0, 0, number);
    ShownIsPlace(script, 0, 0, number);
  }

  /** In terms of the files: the line `follow` answers holds the surviving line's text. */
  lemma FollowFindsText(file: ChangedFile, script: Script, number: nat)
    requires Describes(file, script) && 1 <= number <= |OldFile(script)|
    requires PlaceOf(script, number, 0).Survives?
    ensures var line := FollowOf(number, file);
            1 <= line <= |NewFile(script)| && NewFile(script)[line - 1] == OldFile(script)[number - 1]
  {
    FollowAgreesWithScript(file, script, number);
    PlaceHoldsText(script, number, 0);
  }
}
