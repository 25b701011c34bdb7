/** Breadth-first scheduling: one chunk of every file before any file's second chunk. */
module UnitPlan {
  import opened Orders
  import opened Sequences

  // The plan needs only a unit's leading path.
  datatype Planned<P, U> = Planned(path: P, unit: U)

  function OfPath<P(==,!new), U>(units: seq<Planned<P, U>>, path: P): seq<Planned<P, U>> {
    if units == [] then []
    else if units[0].path == path then [units[0]] + OfPath(units[1..], path)
    else OfPath(units[1..], path)
  }

  lemma {:induction false} OfPathAppend<P(!new), U>(a: seq<Planned<P, U>>, b: seq<Planned<P, U>>, path: P)
    ensures OfPath(a + b, path) == OfPath(a, path) + OfPath(b, path)
  {
    if a == [] {
      assert a + b == b && OfPath(a, path) + OfPath(b, path) == OfPath(b, path);
    } else {
      assert (a + b)[1..] == a[1..] + b;
      OfPathAppend(a[1..], b, path);
    }
  }

  // A group's unit of one round, when it has that many.
  function PartOf<T>(group: seq<T>, part: nat): seq<T> {
    if part < |group| then [group[part]] else []
  }

  function Round<P(==,!new), U>(units: seq<Planned<P, U>>, paths: seq<P>, part: nat): seq<Planned<P, U>> {
    if paths == [] then [] else PartOf(OfPath(units, paths[0]), part) + Round(units, paths[1..], part)
  }

  function Rounds<P(==,!new), U>(units: seq<Planned<P, U>>, paths: seq<P>, count: nat): seq<Planned<P, U>> {
    if count == 0 then [] else Rounds(units, paths, count - 1) + Round(units, paths, count - 1)
  }

  // The groups of a plan: each leading path's units in their order.
  ghost predicate Grouped<P(!new), U>(groups: map<P, seq<Planned<P, U>>>, units: seq<Planned<P, U>>) {
    forall path :: OfPath(units, path) == if path in groups then groups[path] else []
  }

  function Added<P(==,!new), U>(groups: map<P, seq<Planned<P, U>>>, u: Planned<P, U>): map<P, seq<Planned<P, U>>> {
    groups[u.path := (if u.path in groups then groups[u.path] else []) + [u]]
  }

  lemma AddedGroups<P(!new), U>(groups: map<P, seq<Planned<P, U>>>, units: seq<Planned<P, U>>, u: Planned<P, U>)
    requires Grouped(groups, units)
    ensures Grouped(Added(groups, u), units + [u])
  {
    forall path
      ensures OfPath(units + [u], path) == if path in Added(groups, u) then Added(groups, u)[path] else []
    {
      OfPathAppend(units, [u], path);
      assert [u][1..] == [];
      assert OfPath(units, path) + [] == OfPath(units, path);
    }
  }

  method GroupUnits<P(==,!new), U>(units: seq<Planned<P, U>>) returns (groups: map<P, seq<Planned<P, U>>>)
    ensures Grouped(groups, units)
  {
    groups := map[];
    assert units[..0] == [];
    for i := 0 to |units|
      invariant Grouped(groups, units[..i])
    {
      assert units[..i + 1] == units[..i] + [units[i]];
      AddedGroups(groups, units[..i], units[i]);
      groups := Added(groups, units[i]);
    }
    assert units[..|units|] == units;
  }

  method Longest<P(==,!new), U>(groups: map<P, seq<Planned<P, U>>>, paths: seq<P>) returns (longest: nat)
    ensures forall path <- paths :: path in groups ==> |groups[path]| <= longest
  {
    longest := 0;
    for k := 0 to |paths|
      invariant forall path <- paths[..k] :: path in groups ==> |groups[path]| <= longest
    {
      assert paths[..k + 1] == paths[..k] + [paths[k]];
      if paths[k] in groups && |groups[paths[k]]| > longest {
        longest := |groups[paths[k]]|;
      }
    }
    assert paths[..|paths|] == paths;
  }

  method TakeRound<P(==,!new), U>(units: seq<Planned<P, U>>, groups: map<P, seq<Planned<P, U>>>, paths: seq<P>,
      part: nat)
    returns (taken: seq<Planned<P, U>>)
    requires Grouped(groups, units)
    ensures taken == Round(units, paths, part)
  {
    taken := [];
    assert paths[..0] == [];
    for k := 0 to |paths|
      invariant taken == Round(units, paths[..k], part)
    {
      RoundGrows(units, paths[..k], paths[k], part);
      assert paths[..k + 1] == paths[..k] + [paths[k]];
      assert OfPath(units, paths[k]) == if paths[k] in groups then groups[paths[k]] else [];
      if paths[k] in groups && part < |groups[paths[k]]| {
        taken := taken + [groups[paths[k]][part]];
      }
    }
    assert paths[..|paths|] == paths;
  }

  // ---- Which file goes first -------------------------------------------------------------------

  const CODE := [".py", ".go", ".ts", ".tsx", ".js", ".jsx"]

  predicate IsCode(path: string) { exists suffix <- CODE :: EndsWith(path, suffix) }

  function Changes(changed: map<string, nat>, path: string): nat { if path in changed then changed[path] else 0 }

  // Code before anything else, more changed lines first, then by path.
  predicate NoLater(changed: map<string, nat>, a: string, b: string) {
    if IsCode(a) != IsCode(b) then IsCode(a)
    else if Changes(changed, a) != Changes(changed, b) then Changes(changed, a) > Changes(changed, b)
    else TextLe(a, b)
  }

  // The units' leading paths, each where it first occurs.
  function LeadingPaths<U>(units: seq<Planned<string, U>>): seq<string> {
    if units == [] then []
    else
      var before, path := LeadingPaths(units[..|units| - 1]), units[|units| - 1].path;
      if path in before then before else before + [path]
  }

  function PathOrder<U>(units: seq<Planned<string, U>>, changed: map<string, nat>): seq<string> {
    Sort((a: string, b: string) => NoLater(changed, a, b), LeadingPaths(units))
  }

  lemma {:induction false} LeadingPathsAre<U>(units: seq<Planned<string, U>>)
    ensures Distinct(LeadingPaths(units))
    ensures forall path :: path in LeadingPaths(units) <==> exists u <- units :: u.path == path
  {
    if units != [] {
      LeadingPathsAre(units[..|units| - 1]);
      assert units == units[..|units| - 1] + [units[|units| - 1]];
    }
  }

  lemma PathsAreLinear(changed: map<string, nat>, paths: seq<string>)
    ensures Linear((a: string, b: string) => NoLater(changed, a, b), paths)
  {
    forall a <- paths, b <- paths ensures NoLater(changed, a, b) || NoLater(changed, b, a) {
      TextTotal(a, b);
    }
    forall a <- paths, b <- paths, c <- paths | NoLater(changed, a, b) && NoLater(changed, b, c)
      ensures NoLater(changed, a, c)
    {
      if TextLe(a, b) && TextLe(b, c) {
        TextTransitive(a, b, c);
      }
    }
  }

  /** Every leading path is scheduled once, code files and large changes ahead. */
  lemma PathOrderIs<U>(units: seq<Planned<string, U>>, changed: map<string, nat>)
    ensures var order := PathOrder(units, changed);
            && Distinct(order)
            && (forall path :: path in order <==> exists u <- units :: u.path == path)
            && forall i, j | 0 <= i < j < |order| :: NoLater(changed, order[i], order[j])
  {
    var le := (a: string, b: string) => NoLater(changed, a, b);
    var paths := LeadingPaths(units);
    LeadingPathsAre(units);
    PathsAreLinear(changed, paths);
    SortSorts(le, paths);
    SortMembers(le, paths);
    SortHolds(le, paths);
    DistinctByCount(paths, Sort(le, paths));
  }

  // `changed` counts the changed lines of each file.
  method Plan<U>(units: seq<Planned<string, U>>, changed: map<string, nat>) returns (ordered: seq<Planned<string, U>>)
    ensures exists longest: nat :: ordered == Rounds(units, PathOrder(units, changed), longest)
    ensures forall path :: OfPath(ordered, path) == OfPath(units, path)
  {
    var groups := GroupUnits(units);
    var paths := PathOrder(units, changed);
    PathOrderIs(units, changed);
    var longest := Longest(groups, paths);
    ordered := [];
    for part := 0 to longest
      invariant ordered == Rounds(units, paths, part)
    {
      var taken := TakeRound(units, groups, paths, part);
      ordered := ordered + taken;
    }
    RoundsAreComplete(units, paths, longest);
  }

  // Enough rounds bring every unit, file by file in its own order.
  lemma RoundsAreComplete<P(!new), U>(units: seq<Planned<P, U>>, paths: seq<P>, longest: nat)
    requires forall u <- units :: u.path in paths
    requires Distinct(paths)
    requires forall path <- paths :: |OfPath(units, path)| <= longest
    ensures forall path :: OfPath(Rounds(units, paths, longest), path) == OfPath(units, path)
  {
    forall path ensures OfPath(Rounds(units, paths, longest), path) == OfPath(units, path) {
      if path !in paths {
        RoundsOfOthers(units, paths, longest, path);
        NoneOfPath(units, path);
      } else {
        RoundsOfPath(units, paths, longest, path);
        assert OfPath(units, path)[..|OfPath(units, path)|] == OfPath(units, path);
      }
    }
  }

  lemma {:induction false} NoneOfPath<P(!new), U>(units: seq<Planned<P, U>>, path: P)
    requires forall u <- units :: u.path != path
    ensures OfPath(units, path) == []
  {
    if units != [] {
      NoneOfPath(units[1..], path);
    }
  }

  lemma {:induction false} RoundGrows<P(!new), U>(units: seq<Planned<P, U>>, paths: seq<P>, path: P, part: nat)
    ensures Round(units, paths + [path], part) == Round(units, paths, part) + PartOf(OfPath(units, path), part)
  {
    if paths == [] {
      assert ([] + [path])[1..] == [];
    } else {
      assert (paths + [path])[1..] == paths[1..] + [path];
      RoundGrows(units, paths[1..], path, part);
    }
  }

  lemma {:induction false} OfPathPaths<P(!new), U>(units: seq<Planned<P, U>>, path: P)
    ensures forall u <- OfPath(units, path) :: u.path == path
  {
    if units != [] {
      OfPathPaths(units[1..], path);
    }
  }

  // A round contributes the file's unit of that part, if the file is listed and has one.
  lemma {:induction false} RoundOfPath<P(!new), U>(units: seq<Planned<P, U>>, paths: seq<P>, part: nat, path: P)
    requires Distinct(paths)
    ensures OfPath(Round(units, paths, part), path) == if path in paths then PartOf(OfPath(units, path), part) else []
  {
    if paths != [] {
      var group := OfPath(units, paths[0]);
      var mine := PartOf(group, part);
      RoundOfPath(units, paths[1..], part, path);
      OfPathPaths(units, paths[0]);
      OfPathAppend(mine, Round(units, paths[1..], part), path);
      if part < |group| {
        assert group[part] in group;
      }
      if path == paths[0] {
        assert path !in paths[1..];
      }
    }
  }

  function FirstOf<T>(group: seq<T>, count: nat): seq<T> {
    if count < |group| then group[..count] else group
  }

  lemma FirstOfGrows<T>(group: seq<T>, count: nat)
    requires count > 0
    ensures FirstOf(group, count) == FirstOf(group, count - 1) + PartOf(group, count - 1)
  {
    if count - 1 < |group| {
      assert group[..count] == group[..count - 1] + [group[count - 1]];
      assert group[..|group|] == group;
    } else {
      assert group + [] == group;
    }
  }

  // After some rounds, each listed file has contributed its first units, that many.
  lemma {:induction false} RoundsOfPath<P(!new), U>(units: seq<Planned<P, U>>, paths: seq<P>, count: nat, path: P)
    requires Distinct(paths) && path in paths
    ensures OfPath(Rounds(units, paths, count), path) == FirstOf(OfPath(units, path), count)
  {
    if count > 0 {
      var group, earlier, last := OfPath(units, path), Rounds(units, paths, count - 1), Round(units, paths, count - 1);
      calc {
        OfPath(earlier + last, path);
        { OfPathAppend(earlier, last, path); }
        OfPath(earlier, path) + OfPath(last, path);
        { RoundsOfPath(units, paths, count - 1, path); RoundOfPath(units, paths, count - 1, path); }
        FirstOf(group, count - 1) + PartOf(group, count - 1);
        { FirstOfGrows(group, count); }
        FirstOf(group, count);
      }
    }
  }

  lemma {:induction false} RoundsOfOthers<P(!new), U>(units: seq<Planned<P, U>>, paths: seq<P>, count: nat, path: P)
    requires Distinct(paths) && path !in paths
    ensures OfPath(Rounds(units, paths, count), path) == []
  {
    if count > 0 {
      var earlier, last := Rounds(units, paths, count - 1), Round(units, paths, count - 1);
      RoundsOfOthers(units, paths, count - 1, path);
      RoundOfPath(units, paths, count - 1, path);
      OfPathAppend(earlier, last, path);
      assert OfPath(earlier + last, path) == OfPath(earlier, path) + OfPath(last, path);
    }
  }

  lemma {:induction false} CountOfPath<P(!new), U>(units: seq<Planned<P, U>>, u: Planned<P, U>)
    ensures multiset(units)[u] == multiset(OfPath(units, u.path))[u]
  {
    if units != [] {
      CountOfPath(units[1..], u);
      assert units == [units[0]] + units[1..];
    }
  }

  /** A schedule that keeps every file's units in order is a permutation of the units. */
  lemma SchedulesArePermutations<P(!new), U>(units: seq<Planned<P, U>>, ordered: seq<Planned<P, U>>)
    requires forall path :: OfPath(ordered, path) == OfPath(units, path)
    ensures multiset(ordered) == multiset(units)
  {
    forall u: Planned<P, U> ensures multiset(ordered)[u] == multiset(units)[u] {
      CountOfPath(units, u);
      CountOfPath(ordered, u);
      assert OfPath(ordered, u.path) == OfPath(units, u.path);
    }
  }
}
