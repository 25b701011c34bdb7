/** Work units: whole files packed together while they fit, large files chunk by chunk. */
module Units {
  import opened Sequences
  import opened Diffs
  import opened FileContext
  import opened FileOrder
  import opened Partition
  import opened Segments
  import opened Chunks
  import opened ChunkProperties

  // One of `count` chunks of a file under its title; `items` includes the title.
  datatype Section = Section(file: ChangedFile, part: nat, count: nat, items: seq<Item>)

  datatype Unit = Unit(sections: seq<Section>, omitted: bool)

  function Title(file: ChangedFile): string {
    "=== " + file.path
    + (if file.renamed then " (renamed from " + (if file.oldPath.Some? then file.oldPath.value else "None") + ")"
      else "")
    + " ==="
  }

  function Room(file: ChangedFile, limit: int): int {
    var left := limit - Bytes(Title(file)) - 1;
    if left < 1 then 1 else left
  }

  function SectionOf(file: ChangedFile, part: nat, count: nat, chunk: seq<Item>): Section {
    Section(file, part, count, [Remark(Title(file))] + chunk)
  }

  function SectionsOf(file: ChangedFile, limit: int): (sections: seq<Section>)
    ensures |sections| == |ChunksOf(file, Room(file, limit))|
    ensures forall i | 0 <= i < |sections| ::
              sections[i] == SectionOf(file, i, |sections|, ChunksOf(file, Room(file, limit))[i])
  {
    var chunks := ChunksOf(file, Room(file, limit));
    seq(|chunks|, i requires 0 <= i < |chunks| => SectionOf(file, i, |chunks|, chunks[i]))
  }

  // The displayed lines of sections sharing a unit; joining them joins the sections.
  function ItemsOf(sections: seq<Section>): seq<Item> {
    if sections == [] then [] else sections[0].items + ItemsOf(sections[1..])
  }

  function Content(u: Unit): seq<Item> {
    if !u.omitted || u.sections == [] || u.sections[0].items == [] then ItemsOf(u.sections)
    else [u.sections[0].items[0], Remark("A source line exceeds the unit budget; examination omitted.")]
  }

  predicate Oversized(s: Section, limit: int) { Size(s.items) > limit }

  datatype Packer = Packer(units: seq<Unit>, packed: seq<Section>)

  function Flushed(p: Packer): Packer {
    if p.packed == [] then p else Packer(p.units + [Unit(p.packed, false)], [])
  }

  function Alone(sections: seq<Section>, limit: int): seq<Unit> {
    seq(|sections|, i requires 0 <= i < |sections| => Unit([sections[i]], Oversized(sections[i], limit)))
  }

  function AddSections(p: Packer, sections: seq<Section>, limit: int): Packer {
    if |sections| == 1 && !Oversized(sections[0], limit) then
      var q := if Size(ItemsOf(p.packed + sections)) > limit then Flushed(p) else p;
      Packer(q.units, q.packed + sections)
    else
      Packer(Flushed(p).units + Alone(sections, limit), [])
  }

  function AddFiles(p: Packer, files: seq<ChangedFile>, limit: int): Packer
    decreases files
  {
    if files == [] then p else AddFiles(AddSections(p, SectionsOf(files[0], limit), limit), files[1..], limit)
  }

  // `paths` restricts a re-review to some of the files.
  predicate IsReviewed(file: ChangedFile, paths: Option<set<string>>) {
    !file.excluded && (paths.None? || file.path in paths.value)
  }

  // The reviewed files in packing order.
  function Reviewed(files: seq<ChangedFile>, paths: Option<set<string>>): seq<ChangedFile> {
    Ordered(Filter((f: ChangedFile) => IsReviewed(f, paths), files))
  }

  // `files` are in packing order.
  function UnitsOf(files: seq<ChangedFile>, limit: int): seq<Unit> {
    Flushed(AddFiles(Packer([], []), files, limit)).units
  }

  method PackFile(p: Packer, file: ChangedFile, limit: int) returns (q: Packer)
    ensures q == AddSections(p, SectionsOf(file, limit), limit)
  {
    var chunks := FileChunks(file, Room(file, limit));
    var sections := seq(|chunks|, n requires 0 <= n < |chunks| => SectionOf(file, n, |chunks|, chunks[n]));
    assert sections == SectionsOf(file, limit);
    q := p;
    if |sections| == 1 && !Oversized(sections[0], limit) {
      if Size(ItemsOf(p.packed + sections)) > limit {
        q := Flushed(p);
      }
      q := Packer(q.units, q.packed + sections);
    } else {
      q := Packer(Flushed(p).units + Alone(sections, limit), []);
    }
  }

  method PackUnits(files: seq<ChangedFile>, limit: int) returns (units: seq<Unit>)
    ensures units == UnitsOf(files, limit)
  {
    var p := Packer([], []);
    for i := 0 to |files|
      invariant AddFiles(p, files[i..], limit) == AddFiles(Packer([], []), files, limit)
    {
      assert files[i..][1..] == files[i + 1..];
      p := PackFile(p, files[i], limit);
    }
    return Flushed(p).units;
  }

  // ---- What a unit is sent with ----------------------------------------------------------------

  // With the number of findings it may raise and what it is told of each section's file.
  datatype Work = Work(unit: Unit, maxFindings: nat, contexts: seq<Context>)

  // Three findings, one more for every further 8000 bytes, eight at most.
  function FindingsCap(u: Unit): (cap: nat)
    ensures 3 <= cap <= 8
  {
    Min(8, 3 + Bytes(Join(Content(u))) / 8000)
  }

  function ContextsOf(sections: seq<Section>, omitted: bool): seq<Context> {
    if sections == [] then []
    else
      var last := sections[|sections| - 1];
      ContextsOf(sections[..|sections| - 1], omitted)
      + [ContextOf(last.file, last.items, omitted, last.part, last.count)]
  }

  lemma ContextsGrow(sections: seq<Section>, k: nat, omitted: bool)
    requires k < |sections|
    ensures var s := sections[k];
            ContextsOf(sections[..k + 1], omitted)
            == ContextsOf(sections[..k], omitted) + [ContextOf(s.file, s.items, omitted, s.part, s.count)]
  {
    assert sections[..k + 1][..k] == sections[..k];
  }

  function WorkOf(u: Unit): Work { Work(u, FindingsCap(u), ContextsOf(u.sections, u.omitted)) }

  function AllWork(units: seq<Unit>): seq<Work> {
    if units == [] then [] else AllWork(units[..|units| - 1]) + [WorkOf(units[|units| - 1])]
  }

  method Accompany(u: Unit) returns (w: Work)
    ensures w == WorkOf(u)
  {
    var contexts: seq<Context> := [];
    for k := 0 to |u.sections|
      invariant contexts == ContextsOf(u.sections[..k], u.omitted)
    {
      var s := u.sections[k];
      ContextsGrow(u.sections, k, u.omitted);
      var c := ContextFor(s.file, s.items, u.omitted, s.part, s.count);
      contexts := contexts + [c];
    }
    assert u.sections[..|u.sections|] == u.sections;
    w := Work(u, FindingsCap(u), contexts);
  }

  method AccompanyAll(units: seq<Unit>) returns (work: seq<Work>)
    ensures work == AllWork(units)
  {
    work := [];
    for i := 0 to |units|
      invariant work == AllWork(units[..i])
    {
      assert units[..i + 1][..i] == units[..i];
      var w := Accompany(units[i]);
      work := work + [w];
    }
    assert units[..|units|] == units;
  }

  method CoherentUnits(changed: seq<ChangedFile>, limit: int, paths: Option<set<string>>) returns (work: seq<Work>)
    ensures work == AllWork(UnitsOf(Reviewed(changed, paths), limit))
  {
    var units := PackUnits(Reviewed(changed, paths), limit);
    work := AccompanyAll(units);
  }

  lemma {:induction false} WorkForEach(units: seq<Unit>, i: nat)
    requires i < |units|
    ensures |AllWork(units)| == |units| && AllWork(units)[i] == WorkOf(units[i])
  {
    if i < |units| - 1 {
      WorkForEach(units[..|units| - 1], i);
    } else if i > 0 {
      WorkForEach(units[..|units| - 1], i - 1);
    }
  }

  function SpelledBy(contexts: seq<Context>): seq<nat> {
    if contexts == [] then []
    else SpelledBy(contexts[..|contexts| - 1]) + Spelled(contexts[|contexts| - 1].ranges)
  }

  lemma {:induction false} NumbersInAppend(a: seq<Item>, b: seq<Item>)
    ensures NumbersIn(a + b) == NumbersIn(a) + NumbersIn(b)
  {
    if a == [] {
      assert a + b == b;
    } else {
      assert (a + b)[1..] == a[1..] + b;
      NumbersInAppend(a[1..], b);
    }
  }

  lemma {:induction false} ItemsOfAppend(sections: seq<Section>, s: Section)
    ensures ItemsOf(sections + [s]) == ItemsOf(sections) + s.items
  {
    if sections == [] {
      OneSection(s);
      assert [] + s.items == s.items;
    } else {
      assert (sections + [s])[1..] == sections[1..] + [s];
      ItemsOfAppend(sections[1..], s);
      Associative(sections[0].items, ItemsOf(sections[1..]), s.items);
    }
  }

  lemma {:induction false} SectionsSpelled(sections: seq<Section>, omitted: bool)
    ensures SpelledBy(ContextsOf(sections, omitted)) == NumbersIn(ItemsOf(sections))
  {
    if sections != [] {
      var before, last := sections[..|sections| - 1], sections[|sections| - 1];
      var context := ContextOf(last.file, last.items, omitted, last.part, last.count);
      SectionsSpelled(before, omitted);
      ContextTells(last.file, last.items, omitted, last.part, last.count);
      ItemsOfAppend(before, last);
      assert before + [last] == sections;
      NumbersInAppend(ItemsOf(before), last.items);
      assert (ContextsOf(before, omitted) + [context])[..|ContextsOf(before, omitted)|] == ContextsOf(before, omitted);
    }
  }

  lemma {:induction false} ContextForEach(sections: seq<Section>, omitted: bool, k: nat)
    requires k < |sections|
    ensures var s := sections[k];
            |ContextsOf(sections, omitted)| == |sections|
            && ContextsOf(sections, omitted)[k] == ContextOf(s.file, s.items, omitted, s.part, s.count)
  {
    if k < |sections| - 1 {
      ContextForEach(sections[..|sections| - 1], omitted, k);
    } else if k > 0 {
      ContextForEach(sections[..|sections| - 1], omitted, k - 1);
    }
  }

  /** In every unit that is not omitted the supplied ranges, file by file, spell out exactly the
      line numbers the unit displays. */
  lemma ContextsSpellContent(units: seq<Unit>, i: nat)
    requires i < |units| && !units[i].omitted
    ensures |AllWork(units)| == |units| && AllWork(units)[i].unit == units[i]
    ensures SpelledBy(AllWork(units)[i].contexts) == NumbersIn(Content(units[i]))
  {
    WorkForEach(units, i);
    SectionsSpelled(units[i].sections, false);
  }

  /** Each section's own ranges spell out the numbers it displays, and its file is called complete
      exactly if the unit is not omitted and the section displays all its lines. */
  lemma ContextsTellOfSections(u: Unit, k: nat)
    requires k < |u.sections|
    ensures |WorkOf(u).contexts| == |u.sections|
    ensures var c, s := WorkOf(u).contexts[k], u.sections[k];
            && Spelled(c.ranges) == NumbersIn(s.items) && Maximal(c.ranges)
            && (c.completeFile <==> !u.omitted && IsWhole(s.file, NumbersIn(s.items)))
  {
    var s := u.sections[k];
    ContextForEach(u.sections, u.omitted, k);
    ContextTells(s.file, s.items, u.omitted, s.part, s.count);
  }

  // ---- Each section in exactly one unit ------------------------------------------------------

  function Laid(units: seq<Unit>): seq<Section> {
    if units == [] then [] else units[0].sections + Laid(units[1..])
  }

  function AllSections(files: seq<ChangedFile>, limit: int): seq<Section> {
    if files == [] then [] else SectionsOf(files[0], limit) + AllSections(files[1..], limit)
  }

  lemma {:induction false} LaidAppend(a: seq<Unit>, b: seq<Unit>)
    ensures Laid(a + b) == Laid(a) + Laid(b)
  {
    if a == [] {
      assert a + b == b;
    } else {
      assert (a + b)[1..] == a[1..] + b;
      LaidAppend(a[1..], b);
      Associative(a[0].sections, Laid(a[1..]), Laid(b));
    }
  }

  lemma {:induction false} LaidAlone(sections: seq<Section>, limit: int)
    ensures Laid(Alone(sections, limit)) == sections
  {
    if sections != [] {
      LaidAlone(sections[1..], limit);
      assert Alone(sections, limit)[1..] == Alone(sections[1..], limit);
    }
  }

  lemma FlushKeepsSections(p: Packer)
    ensures Laid(Flushed(p).units) == Laid(p.units) + p.packed
    ensures Flushed(p).packed == []
  {
    if p.packed != [] {
      var u := Unit(p.packed, false);
      LaidAppend(p.units, [u]);
      assert Laid([u]) == p.packed + Laid([u][1..]) == p.packed;
    } else {
      assert Laid(p.units) + [] == Laid(p.units);
    }
  }

  lemma AddKeepsSections(p: Packer, sections: seq<Section>, limit: int)
    ensures var q := AddSections(p, sections, limit);
            Laid(q.units) + q.packed == (Laid(p.units) + p.packed) + sections
  {
    FlushKeepsSections(p);
    if |sections| == 1 && !Oversized(sections[0], limit) {
      if Size(ItemsOf(p.packed + sections)) > limit {
        assert Flushed(p).packed + sections == sections;
      } else {
        Associative(Laid(p.units), p.packed, sections);
      }
    } else {
      LaidAlone(sections, limit);
      LaidAppend(Flushed(p).units, Alone(sections, limit));
      var whole := Laid(p.units) + p.packed + sections;
      assert whole + [] == whole;
    }
  }

  lemma {:induction false} AddFilesKeepsSections(p: Packer, files: seq<ChangedFile>, limit: int)
    ensures var q := AddFiles(p, files, limit);
            Laid(q.units) + q.packed == (Laid(p.units) + p.packed) + AllSections(files, limit)
    decreases files
  {
    var done := Laid(p.units) + p.packed;
    if files == [] {
      assert done + [] == done;
    } else {
      var mine := SectionsOf(files[0], limit);
      AddKeepsSections(p, mine, limit);
      AddFilesKeepsSections(AddSections(p, mine, limit), files[1..], limit);
      Associative(done, mine, AllSections(files[1..], limit));
    }
  }

  /** The units lay out exactly the files' sections, each once and in order. */
  lemma UnitsLaySections(files: seq<ChangedFile>, limit: int)
    ensures Laid(UnitsOf(files, limit)) == AllSections(files, limit)
  {
    var p := AddFiles(Packer([], []), files, limit);
    AddFilesKeepsSections(Packer([], []), files, limit);
    FlushKeepsSections(p);
    assert Laid([]) + [] == [] && [] + AllSections(files, limit) == AllSections(files, limit);
  }

  // ---- The byte limit ---------------------------------------------------------------------------

  // A unit fits, or it is the one section that does not and is omitted for it.
  predicate Sound(u: Unit, limit: int) {
    if u.omitted then |u.sections| == 1 && Oversized(u.sections[0], limit)
    else Size(Content(u)) <= limit
  }

  predicate AllSound(p: Packer, limit: int) {
    (forall u <- p.units :: Sound(u, limit)) && Size(ItemsOf(p.packed)) <= limit
  }

  lemma OneSection(s: Section)
    ensures ItemsOf([s]) == s.items
  {
    assert ItemsOf([s]) == s.items + ItemsOf([s][1..]) == s.items;
  }

  lemma AddKeepsSound(p: Packer, sections: seq<Section>, limit: int)
    requires AllSound(p, limit) && limit >= 0
    ensures AllSound(AddSections(p, sections, limit), limit)
  {
    forall u <- Alone(sections, limit) ensures Sound(u, limit) {
      OneSection(u.sections[0]);
    }
    if |sections| == 1 {
      OneSection(sections[0]);
      assert sections == [sections[0]] && [] + sections == sections;
    }
  }

  lemma {:induction false} AddFilesKeepsSound(p: Packer, files: seq<ChangedFile>, limit: int)
    requires AllSound(p, limit) && limit >= 0
    ensures AllSound(AddFiles(p, files, limit), limit)
    decreases files
  {
    if files != [] {
      var sections := SectionsOf(files[0], limit);
      AddKeepsSound(p, sections, limit);
      AddFilesKeepsSound(AddSections(p, sections, limit), files[1..], limit);
    }
  }

  lemma {:induction false} LaidSection(units: seq<Unit>, u: Unit, s: Section)
    requires u in units && s in u.sections
    ensures s in Laid(units)
  {
    if u != units[0] {
      LaidSection(units[1..], u, s);
    }
  }

  lemma {:induction false} SectionOrigin(files: seq<ChangedFile>, limit: int, s: Section)
    returns (file: ChangedFile, i: nat)
    requires s in AllSections(files, limit)
    ensures file in files && i < |SectionsOf(file, limit)| && s == SectionsOf(file, limit)[i]
  {
    file := files[0];
    if s in SectionsOf(file, limit) {
      i :| 0 <= i < |SectionsOf(file, limit)| && s == SectionsOf(file, limit)[i];
    } else {
      file, i := SectionOrigin(files[1..], limit, s);
    }
  }

  /** Every unit that is examined fits the limit; a unit is omitted only for one section that
      exceeds it: a single displayed line, or a title that leaves no room for one. */
  lemma UnitsFit(files: seq<ChangedFile>, limit: int)
    requires limit >= 0
    ensures forall u <- UnitsOf(files, limit) ::
              if u.omitted then
                |u.sections| == 1 && Size(u.sections[0].items) > limit
                && exists file <- files ::
                     u.sections[0].file.path == file.path
                     && (|u.sections[0].items| == 2 || limit <= Bytes(Title(file)) + 1)
              else Bytes(Join(Content(u))) <= limit
  {
    var p := AddFiles(Packer([], []), files, limit);
    AddFilesKeepsSound(Packer([], []), files, limit);
    UnitsLaySections(files, limit);
    forall u <- UnitsOf(files, limit)
      ensures if u.omitted then
                |u.sections| == 1 && Size(u.sections[0].items) > limit
                && exists file <- files ::
                     u.sections[0].file.path == file.path
                     && (|u.sections[0].items| == 2 || limit <= Bytes(Title(file)) + 1)
              else Bytes(Join(Content(u))) <= limit
    {
      assert Sound(u, limit);
      if u.omitted {
        LaidSection(UnitsOf(files, limit), u, u.sections[0]);
        var file, i := SectionOrigin(files, limit, u.sections[0]);
        OversizedSection(file, i, limit);
      } else {
        SizeIsJoinedLength(Content(u));
      }
    }
  }

  lemma OversizedSection(file: ChangedFile, i: nat, limit: int)
    requires limit >= 0 && i < |SectionsOf(file, limit)|
    ensures Oversized(SectionsOf(file, limit)[i], limit) ==>
              |SectionsOf(file, limit)[i].items| == 2 || limit <= Bytes(Title(file)) + 1
  {
    var chunk := ChunksOf(file, Room(file, limit))[i];
    ChunksFit(file, Room(file, limit));
    assert chunk in ChunksOf(file, Room(file, limit));
    CostAppend([Remark(Title(file))], chunk);
    assert Cost([Remark(Title(file))]) == Bytes(Title(file)) + 1 + Cost([Remark(Title(file))][1..]);
  }

  // ---- Unit identities ---------------------------------------------------------------------------

  // A unit is named after the path and part of its first section.
  function Id(u: Unit): (string, nat) {
    if u.sections == [] then ("", 0) else (u.sections[0].file.path, u.sections[0].part)
  }

  predicate DistinctSections(sections: seq<Section>) {
    forall i, j | 0 <= i < j < |sections| ::
      sections[i].file.path != sections[j].file.path || sections[i].part != sections[j].part
  }

  lemma DistinctApart(a: seq<Section>, b: seq<Section>)
    requires DistinctSections(a) && DistinctSections(b)
    requires forall s <- a, t <- b :: s.file.path != t.file.path
    ensures DistinctSections(a + b)
  {
    forall i, j | 0 <= i < j < |a + b|
      ensures (a + b)[i].file.path != (a + b)[j].file.path || (a + b)[i].part != (a + b)[j].part
    {
      if i < |a| <= j {
        assert (a + b)[i] in a && (a + b)[j] in b;
      }
    }
  }

  lemma OtherPaths(files: seq<ChangedFile>, limit: int, s: Section)
    requires files != [] && (forall i, j | 0 <= i < j < |files| :: files[i].path != files[j].path)
    requires s in AllSections(files[1..], limit)
    ensures s.file.path != files[0].path
  {
    var file, i := SectionOrigin(files[1..], limit, s);
    var k :| 0 <= k < |files[1..]| && files[1..][k] == file;
    assert files[k + 1] == file;
  }

  lemma {:induction false} SectionsAreDistinct(files: seq<ChangedFile>, limit: int)
    requires forall i, j | 0 <= i < j < |files| :: files[i].path != files[j].path
    ensures DistinctSections(AllSections(files, limit))
  {
    if files != [] {
      var mine, rest := SectionsOf(files[0], limit), AllSections(files[1..], limit);
      SectionsAreDistinct(files[1..], limit);
      forall s <- mine, t <- rest ensures s.file.path != t.file.path {
        OtherPaths(files, limit, t);
      }
      DistinctApart(mine, rest);
    }
  }

  predicate NoneEmpty(units: seq<Unit>) { forall u <- units :: u.sections != [] }

  lemma {:induction false} AddFilesNoneEmpty(p: Packer, files: seq<ChangedFile>, limit: int)
    requires NoneEmpty(p.units)
    ensures NoneEmpty(AddFiles(p, files, limit).units)
    decreases files
  {
    if files != [] {
      var sections := SectionsOf(files[0], limit);
      assert forall u <- Alone(sections, limit) :: u.sections != [];
      AddFilesNoneEmpty(AddSections(p, sections, limit), files[1..], limit);
    }
  }

  lemma {:induction false} LaidPositions(units: seq<Unit>, i: nat) returns (at: nat)
    requires NoneEmpty(units) && i < |units|
    ensures at < |Laid(units)| && Laid(units)[at] == units[i].sections[0]
    ensures i == 0 ==> at == 0
    ensures i > 0 ==> at >= |units[0].sections|
  {
    if i == 0 {
      at := 0;
    } else {
      var rest := LaidPositions(units[1..], i - 1);
      at := |units[0].sections| + rest;
    }
  }

  lemma {:induction false} IdsAreDistinct(units: seq<Unit>, i: nat, j: nat)
    requires NoneEmpty(units) && DistinctSections(Laid(units)) && i < j < |units|
    ensures Id(units[i]) != Id(units[j])
  {
    if i == 0 {
      var a := LaidPositions(units, i);
      var b := LaidPositions(units, j);
      assert a < b;
    } else {
      var first, rest := units[0].sections, Laid(units[1..]);
      assert forall k | 0 <= k < |rest| :: (first + rest)[|first| + k] == rest[k];
      IdsAreDistinct(units[1..], i - 1, j - 1);
    }
  }

  /** Units of files with distinct paths have distinct ids, so coverage can be counted by id. */
  lemma UnitIdsAreDistinct(files: seq<ChangedFile>, limit: int)
    requires forall i, j | 0 <= i < j < |files| :: files[i].path != files[j].path
    ensures var units := UnitsOf(files, limit);
            forall i, j | 0 <= i < j < |units| :: Id(units[i]) != Id(units[j])
  {
    var units := UnitsOf(files, limit);
    SectionsAreDistinct(files, limit);
    UnitsLaySections(files, limit);
    AddFilesNoneEmpty(Packer([], []), files, limit);
    forall i, j | 0 <= i < j < |units| ensures Id(units[i]) != Id(units[j]) {
      IdsAreDistinct(units, i, j);
    }
  }
}
