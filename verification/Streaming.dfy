/** Preparing a file's findings as soon as no pending unit can add to them. */
module Streaming {
  import opened Findings
  import opened Dedup

  datatype Unit = Unit(paths: seq<Label>)

  // One file's proposals, in the order they were first seen.
  datatype Gathered = Gathered(path: Label, proposals: seq<Finding>)

  datatype Call = Call(path: Label, proposals: seq<Finding>)

  // Early work: what it was given, and which call of `prepare` does it.
  datatype Task = Task(inputs: multiset<Finding>, call: nat)

  datatype Prepared = Prepared(findings: seq<Finding>, discarded: seq<Finding>)

  datatype Stream = Stream(
    pending: map<Label, int>,
    planned: set<Label>,
    inputs: seq<Gathered>,
    started: map<Label, Task>,
    calls: seq<Call>)

  const EMPTY := Stream(map[], {}, [], map[], [])

  function Gather(inputs: seq<Gathered>, p: Finding): seq<Gathered> {
    if inputs == [] then [Gathered(p.file, [p])]
    else if inputs[0].path == p.file then [Gathered(p.file, inputs[0].proposals + [p])] + inputs[1..]
    else [inputs[0]] + Gather(inputs[1..], p)
  }

  function GatherAll(inputs: seq<Gathered>, proposals: seq<Finding>): seq<Gathered>
    decreases proposals
  {
    if proposals == [] then inputs else GatherAll(Gather(inputs, proposals[0]), proposals[1..])
  }

  function At(pending: map<Label, int>, path: Label): int {
    if path in pending then pending[path] else 0
  }

  function Count(pending: map<Label, int>, paths: seq<Label>, step: int): map<Label, int>
    decreases paths
  {
    if paths == [] then pending else Count(pending[paths[0] := At(pending, paths[0]) + step], paths[1..], step)
  }

  function Planned(s: Stream, units: seq<Unit>): Stream
    decreases units
  {
    if units == [] then s
    else
      Planned(s.(pending := Count(s.pending, units[0].paths, 1), planned := s.planned + set p <- units[0].paths),
              units[1..])
  }

  function Begin(s: Stream, g: Gathered): Stream {
    if g.path in s.planned && At(s.pending, g.path) <= 0 && g.path !in s.started
    then s.(started := s.started[g.path := Task(multiset(g.proposals), |s.calls|)],
            calls := s.calls + [Call(g.path, g.proposals)])
    else s
  }

  function BeginAll(s: Stream, inputs: seq<Gathered>): Stream
    decreases inputs
  {
    if inputs == [] then s else BeginAll(Begin(s, inputs[0]), inputs[1..])
  }

  // A unit finished with these (already cleaned) proposals.
  function Finished(s: Stream, unit: Unit, proposals: seq<Finding>): Stream {
    var t := s.(inputs := GatherAll(s.inputs, proposals), pending := Count(s.pending, unit.paths, -1));
    BeginAll(t, t.inputs)
  }

  // ---- Gathering --------------------------------------------------------------------

  function Lookup(inputs: seq<Gathered>, path: Label): seq<Finding> {
    if inputs == [] then [] else if inputs[0].path == path then inputs[0].proposals else Lookup(inputs[1..], path)
  }

  predicate Listed(inputs: seq<Gathered>, path: Label) {
    inputs != [] && (inputs[0].path == path || Listed(inputs[1..], path))
  }

  // Each file is listed once, with at least one proposal, all of that file.
  predicate Tidy(inputs: seq<Gathered>) {
    inputs == []
    || (!Listed(inputs[1..], inputs[0].path) && inputs[0].proposals != []
        && OnFile(inputs[0].proposals, inputs[0].path) == inputs[0].proposals && Tidy(inputs[1..]))
  }

  lemma {:induction false} OnFileAppend(a: seq<Finding>, b: seq<Finding>, file: Label)
    ensures OnFile(a + b, file) == OnFile(a, file) + OnFile(b, file)
  {
    if a == [] {
      assert a + b == b && [] + OnFile(b, file) == OnFile(b, file);
    } else {
      assert (a + b)[1..] == a[1..] + b;
      OnFileAppend(a[1..], b, file);
    }
  }

  lemma {:induction false} GatherLooks(inputs: seq<Gathered>, p: Finding, path: Label)
    ensures Lookup(Gather(inputs, p), path)
         == if p.file == path then Lookup(inputs, path) + [p] else Lookup(inputs, path)
    ensures Listed(Gather(inputs, p), path) <==> Listed(inputs, path) || p.file == path
  {
    if inputs == [] {
      assert [Gathered(p.file, [p])][1..] == [] && [] + [p] == [p];
    } else if inputs[0].path != p.file {
      GatherLooks(inputs[1..], p, path);
    }
  }

  lemma {:induction false} GatherKeepsTidy(inputs: seq<Gathered>, p: Finding)
    requires Tidy(inputs)
    ensures Tidy(Gather(inputs, p))
  {
    assert OnFile([p], p.file) == [p] + OnFile([p][1..], p.file) == [p];
    if inputs != [] {
      if inputs[0].path == p.file {
        OnFileAppend(inputs[0].proposals, [p], p.file);
      } else {
        GatherKeepsTidy(inputs[1..], p);
        GatherLooks(inputs[1..], p, inputs[0].path);
      }
    }
  }

  lemma {:induction false} GatherAllLooks(inputs: seq<Gathered>, proposals: seq<Finding>, path: Label)
    requires Tidy(inputs)
    ensures Tidy(GatherAll(inputs, proposals))
    ensures Lookup(GatherAll(inputs, proposals), path) == Lookup(inputs, path) + OnFile(proposals, path)
    ensures Listed(GatherAll(inputs, proposals), path) <==> Listed(inputs, path) || OnFile(proposals, path) != []
    decreases proposals
  {
    if proposals == [] {
      assert Lookup(inputs, path) + [] == Lookup(inputs, path);
    } else {
      var p := proposals[0];
      GatherKeepsTidy(inputs, p);
      GatherLooks(inputs, p, path);
      GatherAllLooks(Gather(inputs, p), proposals[1..], path);
      if p.file == path {
        assert Lookup(inputs, path) + [p] + OnFile(proposals[1..], path)
          == Lookup(inputs, path) + OnFile(proposals, path);
      }
    }
  }

  // ---- Pending counts ------------------------------------------------------------------

  function Times(paths: seq<Label>, path: Label): nat {
    if paths == [] then 0 else (if paths[0] == path then 1 else 0) + Times(paths[1..], path)
  }

  lemma {:induction false} TimesPositive(paths: seq<Label>, path: Label)
    ensures Times(paths, path) > 0 <==> path in paths
  {
    if paths != [] {
      TimesPositive(paths[1..], path);
    }
  }

  lemma {:induction false} CountCounts(pending: map<Label, int>, paths: seq<Label>, step: int, path: Label)
    ensures At(Count(pending, paths, step), path) == At(pending, path) + step * Times(paths, path)
    decreases paths
  {
    if paths != [] {
      CountCounts(pending[paths[0] := At(pending, paths[0]) + step], paths[1..], step, path);
    }
  }

  // How often units that have not finished name a path; units `from` onwards.
  function Open(units: seq<Unit>, from: nat, done: set<nat>, path: Label): nat
    decreases |units| - from
  {
    if from >= |units| then 0
    else (if from in done then 0 else Times(units[from].paths, path)) + Open(units, from + 1, done, path)
  }

  lemma {:induction false} OpenAfter(units: seq<Unit>, from: nat, done: set<nat>, i: nat, path: Label)
    requires i < |units| && i !in done
    ensures Open(units, from, done + {i}, path)
         == Open(units, from, done, path) - (if from <= i then Times(units[i].paths, path) else 0)
    decreases |units| - from
  {
    if from < |units| {
      OpenAfter(units, from + 1, done, i, path);
    }
  }

  lemma {:induction false} OpenZero(units: seq<Unit>, from: nat, done: set<nat>, path: Label)
    ensures Open(units, from, done, path) == 0 <==>
            forall i | from <= i < |units| && i !in done :: path !in units[i].paths
    decreases |units| - from
  {
    if from < |units| {
      OpenZero(units, from + 1, done, path);
      TimesPositive(units[from].paths, path);
    }
  }

  lemma {:induction false} PlannedCounts(s: Stream, units: seq<Unit>, path: Label)
    ensures var t := Planned(s, units);
            At(t.pending, path) == At(s.pending, path) + Open(units, 0, {}, path)
            && (path in t.planned <==> path in s.planned || Open(units, 0, {}, path) > 0)
            && t.inputs == s.inputs && t.started == s.started && t.calls == s.calls
    decreases units
  {
    if units != [] {
      var next := s.(pending := Count(s.pending, units[0].paths, 1), planned := s.planned + set p <- units[0].paths);
      CountCounts(s.pending, units[0].paths, 1, path);
      TimesPositive(units[0].paths, path);
      PlannedCounts(next, units[1..], path);
      OpenShifts(units, 1, path);
    }
  }

  lemma {:induction false} OpenShifts(units: seq<Unit>, from: nat, path: Label)
    requires 1 <= from <= |units|
    ensures Open(units[1..], from - 1, {}, path) == Open(units, from, {}, path)
    decreases |units| - from
  {
    if from < |units| {
      OpenShifts(units, from + 1, path);
    }
  }
}
