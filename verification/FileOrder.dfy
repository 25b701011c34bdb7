/** The order in which changed files are packed: each test after the source it exercises. */
module FileOrder {
  import opened Sequences
  import opened Orders
  import opened Diffs

  // ---- What a path says ----------------------------------------------------------------------

  function Split(s: string, c: char): (parts: seq<string>)
    ensures parts != []
    decreases |s|
  {
    var i := IndexOf(s, c);
    if i == |s| then [s] else [s[..i]] + Split(s[i + 1..], c)
  }

  function NameOf(path: string): string { var parts := Split(path, '/'); parts[|parts| - 1] }

  function DirectoryOf(path: string): seq<string> { var parts := Split(path, '/'); parts[..|parts| - 1] }

  function Stem(path: string): string { Split(NameOf(path), '.')[0] }

  // The name of what a test exercises: `test_x.py` and `x_test.go` are about `x`.
  function Subject(path: string): string {
    var stem := Stem(path);
    var rest := if "test_" <= stem then stem[5..] else stem;
    if EndsWith(rest, "_test") then rest[..|rest| - 5] else rest
  }

  function Lower(s: string): string {
    seq(|s|, i requires 0 <= i < |s| => if 'A' <= s[i] <= 'Z' then ((s[i] as int) + 32) as char else s[i])
  }

  const SUFFIXES := [".test.js", ".test.jsx", ".test.ts", ".test.tsx", ".spec.js", ".spec.jsx", ".spec.ts", ".spec.tsx"]

  predicate IsTest(path: string) {
    var lower := Lower(path);
    || "test_" <= NameOf(lower)
    || EndsWith(Stem(lower), "_test")
    || (exists suffix <- SUFFIXES :: EndsWith(NameOf(lower), suffix))
    || (exists part <- DirectoryOf(lower) :: part in {"test", "tests", "__tests__"})
  }

  // The one changed source of that name: in the test's own directory, or anywhere.
  function SourceOf(test: string, sources: seq<string>): (source: Option<string>)
    ensures source.Some? ==> source.value in sources && Subject(source.value) == Subject(test)
  {
    var named := (s: string) => Subject(s) == Subject(test);
    var beside := (s: string) => DirectoryOf(s) == DirectoryOf(test);
    var candidates := Filter(named, sources);
    var local := Filter(beside, candidates);
    if |local| == 1 then
      FilterMember(beside, candidates, local[0]); FilterMember(named, sources, local[0]); Some(local[0])
    else if |candidates| == 1 then FilterMember(named, sources, candidates[0]); Some(candidates[0])
    else None
  }

  // ---- The order ---------------------------------------------------------------------------------

  function Paths(files: seq<ChangedFile>): (paths: seq<string>)
    ensures |paths| == |files| && forall i | 0 <= i < |files| :: paths[i] == files[i].path
  {
    seq(|files|, i requires 0 <= i < |files| => files[i].path)
  }

  function Sources(files: seq<ChangedFile>): seq<string> { Filter((p: string) => !IsTest(p), Paths(files)) }

  // The path a file is sorted under: a test goes with its source.
  function Home(path: string, sources: seq<string>): string {
    if !IsTest(path) then path
    else match SourceOf(path, sources) case None => path case Some(source) => if source == "" then path else source
  }

  predicate NoLater(sources: seq<string>, a: ChangedFile, b: ChangedFile) {
    if Home(a.path, sources) != Home(b.path, sources) then TextLe(Home(a.path, sources), Home(b.path, sources))
    else if IsTest(a.path) != IsTest(b.path) then !IsTest(a.path)
    else TextLe(a.path, b.path)
  }

  function Ordered(files: seq<ChangedFile>): seq<ChangedFile> {
    Sort((a: ChangedFile, b: ChangedFile) => NoLater(Sources(files), a, b), files)
  }

  lemma NoLaterTransitive(sources: seq<string>, a: ChangedFile, b: ChangedFile, c: ChangedFile)
    requires NoLater(sources, a, b) && NoLater(sources, b, c)
    ensures NoLater(sources, a, c)
  {
    var x, y, z := Home(a.path, sources), Home(b.path, sources), Home(c.path, sources);
    TextTotal(x, y);
    TextTotal(y, z);
    if TextLe(x, y) && TextLe(y, z) {
      TextTransitive(x, y, z);
      TextTotal(x, z);
    }
    if TextLe(a.path, b.path) && TextLe(b.path, c.path) {
      TextTransitive(a.path, b.path, c.path);
    }
  }

  lemma OrderIsLinear(sources: seq<string>, files: seq<ChangedFile>)
    ensures Linear((a: ChangedFile, b: ChangedFile) => NoLater(sources, a, b), files)
  {
    forall a <- files, b <- files ensures NoLater(sources, a, b) || NoLater(sources, b, a) {
      TextTotal(Home(a.path, sources), Home(b.path, sources));
      TextTotal(a.path, b.path);
    }
    forall a <- files, b <- files, c <- files | NoLater(sources, a, b) && NoLater(sources, b, c)
      ensures NoLater(sources, a, c)
    {
      NoLaterTransitive(sources, a, b, c);
    }
  }

  lemma OrderedSorts(files: seq<ChangedFile>)
    ensures forall i, j | 0 <= i < j < |Ordered(files)| :: NoLater(Sources(files), Ordered(files)[i], Ordered(files)[j])
  {
    var sources := Sources(files);
    OrderIsLinear(sources, files);
    SortSorts((a: ChangedFile, b: ChangedFile) => NoLater(sources, a, b), files);
  }

  ghost predicate DistinctPaths(files: seq<ChangedFile>) {
    forall i, j | 0 <= i < j < |files| :: files[i].path != files[j].path
  }

  // `test` is the test of `source`.
  predicate Exercises(test: ChangedFile, source: ChangedFile, sources: seq<string>) {
    IsTest(test.path) && !IsTest(source.path) && Home(test.path, sources) == source.path
  }

  lemma FilterTwice<T>(keep: T -> bool, s: seq<T>, i: nat, j: nat)
    requires i < j < |s| && keep(s[i]) && keep(s[j])
    ensures |Filter(keep, s)| >= 2
  {
    assert s == s[..j] + s[j..];
    FilterAppend(keep, s[..j], s[j..]);
    FilterMember(keep, s[..j], s[i]);
    FilterMember(keep, s[j..], s[j]);
    assert s[..j][i] == s[i] && s[j..][0] == s[j];
  }

  lemma {:induction false} PathOnce(files: seq<ChangedFile>, path: string)
    requires DistinctPaths(files)
    ensures |Filter((f: ChangedFile) => f.path == path, files)| <= 1
  {
    if files != [] {
      PathOnce(files[1..], path);
      var others := Filter((f: ChangedFile) => f.path == path, files[1..]);
      if files[0].path == path && others != [] {
        FilterMember((f: ChangedFile) => f.path == path, files[1..], others[0]);
        assert false;
      }
    }
  }

  lemma OrderedKeepsPathsDistinct(files: seq<ChangedFile>)
    requires DistinctPaths(files)
    ensures DistinctPaths(Ordered(files))
  {
    var order, sources := Ordered(files), Sources(files);
    OrderIsLinear(sources, files);
    forall i, j | 0 <= i < j < |order| ensures order[i].path != order[j].path {
      var same := (f: ChangedFile) => f.path == order[i].path;
      SortFilters((a: ChangedFile, b: ChangedFile) => NoLater(sources, a, b), files, same);
      PathOnce(files, order[i].path);
      if order[i].path == order[j].path {
        FilterTwice(same, order, i, j);
      }
    }
  }

  /** The order neither loses nor repeats a file. */
  lemma OrderedIsPermutation(files: seq<ChangedFile>)
    ensures multiset(Ordered(files)) == multiset(files)
  {
    var sources := Sources(files);
    SortHolds((a: ChangedFile, b: ChangedFile) => NoLater(sources, a, b), files);
  }

  /** Files are packed with each test directly behind the source it exercises: between the two
      lie only other tests of that source. */
  lemma TestsFollowSources(files: seq<ChangedFile>, i: nat, j: nat, k: nat)
    requires i < |Ordered(files)| && k < |Ordered(files)| && DistinctPaths(files)
    requires Exercises(Ordered(files)[k], Ordered(files)[i], Sources(files))
    ensures i < k
    ensures i < j < k ==> Exercises(Ordered(files)[j], Ordered(files)[i], Sources(files))
  {
    var order, sources := Ordered(files), Sources(files);
    OrderedKeepsPathsDistinct(files);
    OrderedSorts(files);
    if i < j < k {
      assert NoLater(sources, order[i], order[j]) && NoLater(sources, order[j], order[k]);
      TextTotal(Home(order[i].path, sources), Home(order[j].path, sources));
    }
  }
}
