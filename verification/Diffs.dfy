/** Unified diffs as the service keeps them, and the edit scripts they describe. */
module Diffs {
  import opened Sequences

  datatype Kind = Added | Removed | Unchanged

  datatype DiffLine = DiffLine(text: string, oldLine: Option<int>, newLine: Option<int>, kind: Kind)

  datatype Hunk = Hunk(oldStart: Option<int>, oldLines: Option<int>, newStart: Option<int>, newLines: Option<int>)

  // `scope` holds the enclosing definitions' lines, by new line number.
  datatype ChangedFile = ChangedFile(
    path: string,
    oldPath: Option<string>,
    renamed: bool,
    hunks: seq<Hunk>,
    lines: seq<DiffLine>,
    scope: map<int, string>,
    symbolRanges: seq<(int, int)>,
    totalLines: Option<int>,
    excluded: bool)

  // ---- Edit scripts ---------------------------------------------------------------

  datatype Edit = Keep(text: string) | Delete(text: string) | Insert(text: string)

  // Untouched lines the diff does not show, then one hunk's edits; `Rest` is never shown.
  datatype Script = Rest(lines: seq<string>) | Change(gap: seq<string>, edits: seq<Edit>, rest: Script)

  function OldText(edits: seq<Edit>): seq<string> {
    if edits == [] then []
    else if edits[0].Insert? then OldText(edits[1..])
    else [edits[0].text] + OldText(edits[1..])
  }

  function NewText(edits: seq<Edit>): seq<string> {
    if edits == [] then []
    else if edits[0].Delete? then NewText(edits[1..])
    else [edits[0].text] + NewText(edits[1..])
  }

  function OldFile(script: Script): seq<string> {
    match script
    case Rest(lines) => lines
    case Change(gap, edits, rest) => gap + OldText(edits) + OldFile(rest)
  }

  function NewFile(script: Script): seq<string> {
    match script
    case Rest(lines) => lines
    case Change(gap, edits, rest) => gap + NewText(edits) + NewFile(rest)
  }

  // ---- The diff text of a script ------------------------------------------------------

  // Lines of one hunk; `o` old and `n` new lines precede it.
  function EditLines(edits: seq<Edit>, o: nat, n: nat): seq<DiffLine> {
    if edits == [] then []
    else
      match edits[0]
      case Insert(text) => [DiffLine(text, None, Some(n + 1), Added)] + EditLines(edits[1..], o, n + 1)
      case Keep(text) => [DiffLine(text, Some(o + 1), Some(n + 1), Unchanged)] + EditLines(edits[1..], o + 1, n + 1)
      case Delete(text) => [DiffLine(text, Some(o + 1), None, Removed)] + EditLines(edits[1..], o + 1, n)
  }

  // A zero-length side names the line before the change.
  function HeaderStart(before: nat, count: nat): nat {
    if count == 0 then before else before + 1
  }

  function Header(edits: seq<Edit>, o: nat, n: nat): Hunk {
    var olds, news := |OldText(edits)|, |NewText(edits)|;
    Hunk(Some(HeaderStart(o, olds)), Some(olds), Some(HeaderStart(n, news)), Some(news))
  }

  function HunksOf(script: Script, o: nat, n: nat): seq<Hunk> {
    match script
    case Rest(_) => []
    case Change(gap, edits, rest) =>
      [Header(edits, o + |gap|, n + |gap|)]
      + HunksOf(rest, o + |gap| + |OldText(edits)|, n + |gap| + |NewText(edits)|)
  }

  function LinesOf(script: Script, o: nat, n: nat): seq<DiffLine> {
    match script
    case Rest(_) => []
    case Change(gap, edits, rest) =>
      EditLines(edits, o + |gap|, n + |gap|)
      + LinesOf(rest, o + |gap| + |OldText(edits)|, n + |gap| + |NewText(edits)|)
  }

  // The diff of a script; the remaining fields do not matter to following lines.
  predicate Describes(file: ChangedFile, script: Script) {
    file.hunks == HunksOf(script, 0, 0) && file.lines == LinesOf(script, 0, 0)
  }

  // ---- Where an old line ends up ---------------------------------------------------------

  datatype Place = Survives(line: int) | Deleted(was: int)

  // Line `k` (from 1) of the edits' old lines; `was` is its old place shifted by earlier changes.
  function PlaceInEdits(edits: seq<Edit>, k: nat, n: nat, was: int): Place
    requires 1 <= k <= |OldText(edits)|
  {
    match edits[0]
    case Insert(_) => PlaceInEdits(edits[1..], k, n + 1, was)
    case Keep(_) => if k == 1 then Survives(n + 1) else PlaceInEdits(edits[1..], k - 1, n + 1, was)
    case Delete(_) => if k == 1 then Deleted(was) else PlaceInEdits(edits[1..], k - 1, n, was)
  }

  // Line `k` (from 1) of what remains after `n` new lines are out.
  function PlaceOf(script: Script, k: nat, n: nat): Place
    requires k >= 1
  {
    match script
    case Rest(_) => Survives(n + k)
    case Change(gap, edits, rest) =>
      var after := |gap| + |OldText(edits)|;
      if k <= |gap| then Survives(n + k)
      else if k <= after then PlaceInEdits(edits, k - |gap|, n + |gap|, n + k)
      else PlaceOf(rest, k - after, n + |gap| + |NewText(edits)|)
  }

  lemma {:induction false} EditsKeepText(edits: seq<Edit>, k: nat, n: nat, was: int)
    requires 1 <= k <= |OldText(edits)|
    ensures match PlaceInEdits(edits, k, n, was)
            case Survives(line) =>
              n < line <= n + |NewText(edits)| && NewText(edits)[line - n - 1] == OldText(edits)[k - 1]
            case Deleted(w) => w == was
  {
    match edits[0]
    case Insert(_) => EditsKeepText(edits[1..], k, n + 1, was);
    case Keep(_) => if k > 1 { EditsKeepText(edits[1..], k - 1, n + 1, was); }
    case Delete(_) => if k > 1 { EditsKeepText(edits[1..], k - 1, n, was); }
  }

  /** `PlaceOf` is right: a surviving line's text stands at that place of the new file. */
  lemma {:induction false} PlaceHoldsText(script: Script, k: nat, n: nat)
    requires 1 <= k <= |OldFile(script)|
    ensures var place := PlaceOf(script, k, n);
            place.Survives? ==> n < place.line <= n + |NewFile(script)|
                                && NewFile(script)[place.line - n - 1] == OldFile(script)[k - 1]
  {
    match script
    case Rest(_) =>
    case Change(gap, edits, rest) =>
      var after := |gap| + |OldText(edits)|;
      if |gap| < k <= after {
        EditsKeepText(edits, k - |gap|, n + |gap|, n + k);
      } else if k > after {
        PlaceHoldsText(rest, k - after, n + |gap| + |NewText(edits)|);
      }
  }
}
