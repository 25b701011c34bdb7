/** Every run of the stream: when early work starts, and what finishing returns. */
module StreamingRuns {
  import opened Findings
  import opened Dedup
  import opened Sequences
  import opened Streaming

  // Unit `unit` finished with these proposals.
  datatype Event = Event(unit: nat, proposals: seq<Finding>)

  // Each event names a planned unit, and no unit finishes twice.
  ghost predicate Proper(units: seq<Unit>, events: seq<Event>) {
    (forall e <- events :: e.unit < |units|)
    && forall i, j | 0 <= i < j < |events| :: events[i].unit != events[j].unit
  }

  function Run(units: seq<Unit>, events: seq<Event>): Stream
    requires forall e <- events :: e.unit < |units|
  {
    if events == [] then Planned(EMPTY, units)
    else
      var last := events[|events| - 1];
      Finished(Run(units, events[..|events| - 1]), units[last.unit], last.proposals)
  }

  function Done(events: seq<Event>): set<nat> { set e <- events :: e.unit }

  function Received(events: seq<Event>): seq<Finding> {
    if events == [] then [] else Received(events[..|events| - 1]) + events[|events| - 1].proposals
  }

  // ---- Calls and tasks -----------------------------------------------------------------

  // Every started file has its one call, given proposals of that file; there are no others.
  ghost predicate Linked(started: map<Label, Task>, calls: seq<Call>) {
    (forall path <- started ::
       started[path].call < |calls| && calls[started[path].call].path == path
       && started[path].inputs == multiset(calls[started[path].call].proposals))
    && forall c | 0 <= c < |calls| :: calls[c].path in started && started[calls[c].path].call == c
  }

  ghost predicate Pure(calls: seq<Call>) {
    forall c | 0 <= c < |calls| :: OnFile(calls[c].proposals, calls[c].path) == calls[c].proposals
  }

  predicate Ready(s: Stream, path: Label) { path in s.planned && At(s.pending, path) <= 0 }

  lemma {:induction false} BeginAllStarts(s: Stream, inputs: seq<Gathered>, path: Label)
    requires Linked(s.started, s.calls) && Pure(s.calls) && Tidy(inputs)
    ensures var t := BeginAll(s, inputs);
            Linked(t.started, t.calls) && Pure(t.calls)
            && (path in t.started <==> path in s.started || (Listed(inputs, path) && Ready(s, path)))
            && t.pending == s.pending && t.planned == s.planned && t.inputs == s.inputs
    decreases inputs
  {
    if inputs != [] {
      BeginAllStarts(Begin(s, inputs[0]), inputs[1..], path);
    }
  }

  // ---- The state after any run -----------------------------------------------------------

  ghost predicate Accounted(s: Stream, units: seq<Unit>, done: set<nat>, received: seq<Finding>, path: Label) {
    At(s.pending, path) == Open(units, 0, done, path)
    && (path in s.planned <==> Open(units, 0, {}, path) > 0)
    && Lookup(s.inputs, path) == OnFile(received, path)
    && (Listed(s.inputs, path) <==> OnFile(received, path) != [])
    && (path in s.started <==> Listed(s.inputs, path) && Ready(s, path))
  }

  lemma FinishedAccounts(s: Stream, units: seq<Unit>, done: set<nat>, received: seq<Finding>, i: nat,
      proposals: seq<Finding>, path: Label)
    requires i < |units| && i !in done
    requires Tidy(s.inputs) && Linked(s.started, s.calls) && Pure(s.calls) && Accounted(s, units, done, received, path)
    ensures var t := Finished(s, units[i], proposals);
            Tidy(t.inputs) && Linked(t.started, t.calls) && Pure(t.calls)
            && Accounted(t, units, done + {i}, received + proposals, path)
  {
    var t := s.(inputs := GatherAll(s.inputs, proposals), pending := Count(s.pending, units[i].paths, -1));
    GatherAllLooks(s.inputs, proposals, path);
    OnFileAppend(received, proposals, path);
    CountCounts(s.pending, units[i].paths, -1, path);
    OpenAfter(units, 0, done, i, path);
    BeginAllStarts(t, t.inputs, path);
  }

  lemma {:induction false} RunAccounts(units: seq<Unit>, events: seq<Event>, path: Label)
    requires Proper(units, events)
    ensures var s := Run(units, events);
            Tidy(s.inputs) && Linked(s.started, s.calls) && Pure(s.calls)
            && Accounted(s, units, Done(events), Received(events), path)
    decreases |events|
  {
    if events == [] {
      PlannedCounts(EMPTY, units, path);
      assert Done(events) == {};
    } else {
      var front, last := events[..|events| - 1], events[|events| - 1];
      RunAccounts(units, front, path);
      assert Done(events) == Done(front) + {last.unit};
      FinishedAccounts(Run(units, front), units, Done(front), Received(front), last.unit, last.proposals, path);
    }
  }

  /** After any units have finished in any order: a file's early work has started exactly
      when some unit names the file, every unit that names it has finished, and a proposal
      for it has arrived. */
  lemma EarlyWorkStartsWhenSettled(units: seq<Unit>, events: seq<Event>, path: Label)
    requires Proper(units, events)
    ensures path in Run(units, events).started <==>
            (exists i | 0 <= i < |units| :: path in units[i].paths)
            && (forall i | 0 <= i < |units| && path in units[i].paths :: i in Done(events))
            && OnFile(Received(events), path) != []
  {
    RunAccounts(units, events, path);
    OpenZero(units, 0, Done(events), path);
    OpenZero(units, 0, {}, path);
  }

  /** Early work starts at most once per file, and only on that file's own proposals. */
  lemma EarlyWorkStartsOnce(units: seq<Unit>, events: seq<Event>)
    requires Proper(units, events)
    ensures var calls := Run(units, events).calls;
            (forall c, d | 0 <= c < d < |calls| :: calls[c].path != calls[d].path)
            && forall c | 0 <= c < |calls| :: OnFile(calls[c].proposals, calls[c].path) == calls[c].proposals
  {
    RunAccounts(units, events, 0);
  }

  // ---- Finishing ------------------------------------------------------------------------------

  // `work(n, call)` is whatever the n-th call of `prepare` returns.
  type Work = (nat, Call) -> Prepared

  datatype Ending = Ending(started: map<Label, Task>, calls: seq<Call>, awaited: set<nat>, output: Prepared)

  function Appended(a: Prepared, b: Prepared): Prepared {
    Prepared(a.findings + b.findings, a.discarded + b.discarded)
  }

  // Reuse the file's early work when it was given the same proposals, else prepare again.
  function Settle(e: Ending, g: Gathered, work: Work): Ending {
    var early := if g.path in e.started then {e.started[g.path].call} else {};
    if g.path in e.started && e.started[g.path].inputs == multiset(g.proposals)
       && e.started[g.path].call < |e.calls|
    then
      var c := e.started[g.path].call;
      Ending(e.started - {g.path}, e.calls, e.awaited + early, Appended(e.output, work(c, e.calls[c])))
    else
      var call := Call(g.path, g.proposals);
      Ending(e.started - {g.path}, e.calls + [call], e.awaited + early + {|e.calls|},
             Appended(e.output, work(|e.calls|, call)))
  }

  function SettleAll(e: Ending, files: seq<Gathered>, work: Work): Ending
    decreases files
  {
    if files == [] then e else SettleAll(Settle(e, files[0], work), files[1..], work)
  }

  // Early work for files the proposals no longer name is awaited all the same.
  function AwaitAll(e: Ending): Ending {
    e.(started := map[], awaited := e.awaited + set path <- e.started :: e.started[path].call)
  }

  function Finish(s: Stream, proposals: seq<Finding>, work: Work): Ending {
    AwaitAll(SettleAll(Ending(s.started, s.calls, {}, Prepared([], [])), GatherAll([], proposals), work))
  }

  function Outputs(used: seq<nat>, calls: seq<Call>, work: Work): Prepared {
    if used == [] || used[0] >= |calls| then Prepared([], [])
    else
      Appended(work(used[0], calls[used[0]]), Outputs(used[1..], calls, work))
  }

  // Call `n` prepared this file's proposals, in some order.
  ghost predicate Serves(calls: seq<Call>, n: nat, g: Gathered) {
    n < |calls| && calls[n].path == g.path && multiset(calls[n].proposals) == multiset(g.proposals)
    && OnFile(calls[n].proposals, g.path) == calls[n].proposals
  }

  ghost predicate AllServe(calls: seq<Call>, used: seq<nat>, files: seq<Gathered>) {
    |used| == |files| && forall i | 0 <= i < |used| :: used[i] < |calls| && Serves(calls, used[i], files[i])
  }

  // Calls not yet awaited are exactly those of tasks still in `started`.
  ghost predicate Waiting(e: Ending) {
    (forall path <- e.started ::
       e.started[path].call < |e.calls| && e.calls[e.started[path].call].path == path
       && e.started[path].inputs == multiset(e.calls[e.started[path].call].proposals))
    && forall c | 0 <= c < |e.calls| ::
      c in e.awaited || (e.calls[c].path in e.started && e.started[e.calls[c].path].call == c)
  }

  lemma SettleServes(e: Ending, g: Gathered, work: Work) returns (n: nat)
    requires Waiting(e) && Pure(e.calls) && OnFile(g.proposals, g.path) == g.proposals
    ensures var f := Settle(e, g, work);
            Waiting(f) && Pure(f.calls) && e.calls <= f.calls && Serves(f.calls, n, g)
            && f.output == Appended(e.output, work(n, f.calls[n]))
  {
    if g.path in e.started && e.started[g.path].inputs == multiset(g.proposals) {
      n := e.started[g.path].call;
    } else {
      n := |e.calls|;
    }
  }

  lemma {:induction false} SettleAllServes(e: Ending, files: seq<Gathered>, work: Work) returns (used: seq<nat>)
    requires Waiting(e) && Pure(e.calls) && Tidy(files)
    ensures var f := SettleAll(e, files, work);
            Waiting(f) && Pure(f.calls) && e.calls <= f.calls && AllServe(f.calls, used, files)
            && f.output == Appended(e.output, Outputs(used, f.calls, work))
    decreases files
  {
    if files == [] {
      used := [];
      assert e.output.findings + [] == e.output.findings && e.output.discarded + [] == e.output.discarded;
    } else {
      var n := SettleServes(e, files[0], work);
      var next := Settle(e, files[0], work);
      var rest := SettleAllServes(next, files[1..], work);
      var f := SettleAll(next, files[1..], work);
      used := [n] + rest;
      assert used[1..] == rest && f.calls[n] == next.calls[n];
      AppendedAssociates(e.output, work(n, next.calls[n]), Outputs(rest, f.calls, work));
    }
  }

  lemma AppendedAssociates(a: Prepared, b: Prepared, c: Prepared)
    ensures Appended(Appended(a, b), c) == Appended(a, Appended(b, c))
  {
    assert (a.findings + b.findings) + c.findings == a.findings + (b.findings + c.findings);
    assert (a.discarded + b.discarded) + c.discarded == a.discarded + (b.discarded + c.discarded);
  }

  lemma FinishServes(s: Stream, proposals: seq<Finding>, work: Work) returns (used: seq<nat>)
    requires Linked(s.started, s.calls) && Pure(s.calls) && Tidy(GatherAll([], proposals))
    ensures var e, files := Finish(s, proposals, work), GatherAll([], proposals);
            AllServe(e.calls, used, files) && e.output == Outputs(used, e.calls, work)
            && forall c | 0 <= c < |e.calls| :: c in e.awaited
  {
    var begin := Ending(s.started, s.calls, {}, Prepared([], []));
    used := SettleAllServes(begin, GatherAll([], proposals), work);
    var end := SettleAll(begin, GatherAll([], proposals), work);
    var out := Outputs(used, end.calls, work);
    assert [] + out.findings == out.findings && [] + out.discarded == out.discarded;
    assert forall c | 0 <= c < |end.calls| :: c in AwaitAll(end).awaited;
  }

  /** However the units finished, finishing with any proposals returns, file by file in order
      of first appearance, what one call of `prepare` made of exactly that file's proposals
      in some order; and every call ever started has been awaited. */
  lemma FinishPreparesEveryFile(units: seq<Unit>, events: seq<Event>, proposals: seq<Finding>, work: Work)
    returns (used: seq<nat>)
    requires Proper(units, events)
    ensures var e, files := Finish(Run(units, events), proposals, work), GatherAll([], proposals);
            AllServe(e.calls, used, files) && e.output == Outputs(used, e.calls, work)
            && forall c | 0 <= c < |e.calls| :: c in e.awaited
  {
    RunAccounts(units, events, 0);
    GatherAllLooks([], proposals, 0);
    used := FinishServes(Run(units, events), proposals, work);
  }

  lemma {:induction false} TidyLooks(files: seq<Gathered>, i: nat)
    requires Tidy(files) && i < |files|
    ensures Lookup(files, files[i].path) == files[i].proposals && Listed(files, files[i].path)
  {
    if i > 0 {
      TidyLooks(files[1..], i - 1);
      assert files[1..][i - 1] == files[i];
    }
  }

  lemma {:induction false} ListedSomewhere(files: seq<Gathered>, path: Label) returns (i: nat)
    requires Listed(files, path)
    ensures i < |files| && files[i].path == path
  {
    if files[0].path == path {
      i := 0;
    } else {
      var j := ListedSomewhere(files[1..], path);
      i := j + 1;
    }
  }

  /** The files of a finish: each file with proposals once, with exactly its proposals. */
  lemma GatheredFiles(proposals: seq<Finding>, path: Label)
    ensures var files := GatherAll([], proposals);
            (OnFile(proposals, path) != [] <==> exists i | 0 <= i < |files| :: files[i].path == path)
            && (forall i | 0 <= i < |files| && files[i].path == path :: files[i].proposals == OnFile(proposals, path))
  {
    var files := GatherAll([], proposals);
    GatherAllLooks([], proposals, path);
    forall i | 0 <= i < |files| && files[i].path == path
      ensures files[i].proposals == OnFile(proposals, path) && OnFile(proposals, path) != []
    {
      TidyLooks(files, i);
    }
    if Listed(files, path) {
      var i := ListedSomewhere(files, path);
    }
  }

  // ---- Streaming refines deduplicating the whole stage -----------------------------------------

  function Flat(used: seq<nat>, calls: seq<Call>): seq<Finding> {
    if used == [] || used[0] >= |calls| then [] else calls[used[0]].proposals + Flat(used[1..], calls)
  }

  function AllOf(files: seq<Gathered>): multiset<Finding> {
    if files == [] then multiset{} else multiset(files[0].proposals) + AllOf(files[1..])
  }

  lemma {:induction false} GatherAllOf(inputs: seq<Gathered>, p: Finding)
    ensures AllOf(Gather(inputs, p)) == AllOf(inputs) + multiset{p}
  {
    var next := Gather(inputs, p);
    if inputs == [] {
      assert next[1..] == [];
    } else if inputs[0].path == p.file {
      assert next[1..] == inputs[1..];
    } else {
      assert next[1..] == Gather(inputs[1..], p);
      GatherAllOf(inputs[1..], p);
    }
  }

  lemma {:induction false} GatheredAllOf(inputs: seq<Gathered>, proposals: seq<Finding>)
    ensures AllOf(GatherAll(inputs, proposals)) == AllOf(inputs) + multiset(proposals)
    decreases proposals
  {
    if proposals != [] {
      GatherAllOf(inputs, proposals[0]);
      GatheredAllOf(Gather(inputs, proposals[0]), proposals[1..]);
      assert proposals == [proposals[0]] + proposals[1..];
    }
  }

  lemma {:induction false} AllOnFile(fs: seq<Finding>, path: Label, file: Label)
    requires OnFile(fs, path) == fs
    ensures OnFile(fs, file) == if file == path then fs else []
    ensures forall f <- fs :: f.file == path
  {
    if fs != [] {
      if fs[0].file != path {
        OnFileLength(fs[1..], path);
      }
      AllOnFile(fs[1..], path, file);
    }
  }

  lemma {:induction false} OnFileLength(fs: seq<Finding>, path: Label)
    ensures |OnFile(fs, path)| <= |fs|
  {
    if fs != [] {
      OnFileLength(fs[1..], path);
    }
  }

  // ---- What preparing a file does ----------------------------------------------------------------

  // Code-owned validation of one proposal: discarded, or kept with its fields set.
  type Check = Finding -> Option<Finding>

  ghost predicate KeepsFiles(check: Check) { forall f :: check(f).Some? ==> check(f).value.file == f.file }

  function Checked(check: Check, fs: seq<Finding>): seq<Finding> {
    if fs == [] then []
    else if check(fs[0]).Some? then [check(fs[0]).value] + Checked(check, fs[1..])
    else Checked(check, fs[1..])
  }

  function Kept(check: Check, fs: seq<Finding>, distance: int): seq<Finding> {
    Deduplicated(Checked(check, fs), distance)
  }

  // A finding apart from how it was judged.
  function Bare(f: Finding): Finding { f.(outcome := Outcome(Proposed, false, false, Praise)) }

  function Bares(fs: seq<Finding>): seq<Finding> {
    if fs == [] then [] else [Bare(fs[0])] + Bares(fs[1..])
  }

  // Preparing a file validates its proposals, deduplicates what is left, and then judges each
  // finding in any way, differently on every call.
  ghost predicate Prepares(work: Work, check: Check, distance: int) {
    forall n, call :: Bares(work(n, call).findings) == Bares(Kept(check, call.proposals, distance))
  }

  lemma {:induction false} CheckedOnFile(check: Check, fs: seq<Finding>, file: Label)
    requires KeepsFiles(check)
    ensures OnFile(Checked(check, fs), file) == Checked(check, OnFile(fs, file))
  {
    if fs != [] {
      CheckedOnFile(check, fs[1..], file);
    }
  }

  lemma {:induction false} CheckedMember(check: Check, fs: seq<Finding>, g: Finding)
    ensures g in Checked(check, fs) <==> exists f <- fs :: check(f) == Some(g)
  {
    if fs != [] {
      CheckedMember(check, fs[1..], g);
      assert fs == [fs[0]] + fs[1..];
    }
  }

  lemma {:induction false} BaresAppend(a: seq<Finding>, b: seq<Finding>)
    ensures Bares(a + b) == Bares(a) + Bares(b)
  {
    if a == [] {
      assert a + b == b;
    } else {
      assert (a + b)[1..] == a[1..] + b;
      BaresAppend(a[1..], b);
    }
  }

  lemma {:induction false} BaresOnFile(fs: seq<Finding>, file: Label)
    ensures OnFile(Bares(fs), file) == Bares(OnFile(fs, file))
  {
    if fs != [] {
      BaresOnFile(fs[1..], file);
    }
  }

  lemma KeptOnFile(check: Check, fs: seq<Finding>, path: Label, file: Label, distance: int)
    requires OnFile(fs, path) == fs && KeepsFiles(check)
    ensures OnFile(Bares(Kept(check, fs, distance)), file)
         == if file == path then Bares(Kept(check, fs, distance)) else []
  {
    var checked := Checked(check, fs);
    CheckedOnFile(check, fs, path);
    AllOnFile(checked, path, file);
    DeduplicationIsLocal(checked, distance, file);
    BaresOnFile(Kept(check, fs, distance), file);
  }

  lemma {:induction false} NotListed(
      files: seq<Gathered>, used: seq<nat>, calls: seq<Call>, work: Work, path: Label, check: Check, distance: int)
    requires AllServe(calls, used, files) && KeepsFiles(check)
    requires !Listed(files, path) && Prepares(work, check, distance)
    ensures OnFile(Flat(used, calls), path) == [] && OnFile(Bares(Outputs(used, calls, work).findings), path) == []
  {
    if used != [] {
      var call := calls[used[0]];
      var kept, others := Kept(check, call.proposals, distance), Outputs(used[1..], calls, work).findings;
      AllOnFile(call.proposals, call.path, path);
      KeptOnFile(check, call.proposals, call.path, path, distance);
      assert Serves(calls, used[0], files[0]) && Bares(work(used[0], call).findings) == Bares(kept);
      OnFileAppend(call.proposals, Flat(used[1..], calls), path);
      BaresAppend(work(used[0], call).findings, others);
      OnFileAppend(Bares(kept), Bares(others), path);
      NotListed(files[1..], used[1..], calls, work, path, check, distance);
    }
  }

  // The first file's part of the proposals and of what was made of them.
  lemma FrontOnFile(
      check: Check, mine: seq<Finding>, rest: seq<Finding>, made: seq<Finding>, others: seq<Finding>, file: Label,
      path: Label, distance: int)
    requires OnFile(mine, file) == mine && KeepsFiles(check)
    requires Bares(made) == Bares(Kept(check, mine, distance))
    ensures OnFile(mine + rest, path) == (if path == file then mine else []) + OnFile(rest, path)
    ensures OnFile(Bares(made + others), path)
         == (if path == file then Bares(Kept(check, mine, distance)) else []) + OnFile(Bares(others), path)
  {
    AllOnFile(mine, file, path);
    KeptOnFile(check, mine, file, path, distance);
    OnFileAppend(mine, rest, path);
    BaresAppend(made, others);
    OnFileAppend(Bares(made), Bares(others), path);
  }

  lemma {:induction false} OutputsOnFile(
      files: seq<Gathered>, used: seq<nat>, calls: seq<Call>, work: Work, path: Label, check: Check, distance: int)
    requires AllServe(calls, used, files) && Tidy(files) && KeepsFiles(check) && Prepares(work, check, distance)
    ensures OnFile(Bares(Outputs(used, calls, work).findings), path)
         == Bares(Kept(check, OnFile(Flat(used, calls), path), distance))
    ensures multiset(Flat(used, calls)) == AllOf(files)
  {
    if used != [] {
      var call := calls[used[0]];
      var mine, rest := call.proposals, Flat(used[1..], calls);
      var kept, others := Bares(Kept(check, mine, distance)), Outputs(used[1..], calls, work).findings;
      assert Serves(calls, used[0], files[0]) && Bares(work(used[0], call).findings) == kept;
      FrontOnFile(check, mine, rest, work(used[0], call).findings, others, call.path, path, distance);
      OutputsOnFile(files[1..], used[1..], calls, work, path, check, distance);
      if path == call.path {
        NotListed(files[1..], used[1..], calls, work, path, check, distance);
        assert mine + [] == mine && kept + [] == kept;
      } else {
        assert [] + OnFile(rest, path) == OnFile(rest, path);
        assert [] + OnFile(Bares(others), path) == OnFile(Bares(others), path);
      }
    }
  }

  lemma CheckedPermuted(check: Check, a: seq<Finding>, b: seq<Finding>)
    requires multiset(a) == multiset(b) && FingerprintsNameFiles(Checked(check, a))
    ensures FingerprintsNameFiles(Checked(check, b))
  {
    forall g | g in Checked(check, b) ensures g in Checked(check, a) {
      CheckedMember(check, b, g);
      var f :| f in b && check(f) == Some(g);
      assert f in multiset(b);
      CheckedMember(check, a, g);
    }
  }

  lemma KeptIsLocal(check: Check, fs: seq<Finding>, distance: int, file: Label)
    requires KeepsFiles(check) && FingerprintsNameFiles(Checked(check, fs))
    ensures OnFile(Bares(Kept(check, fs, distance)), file) == Bares(Kept(check, OnFile(fs, file), distance))
  {
    BaresOnFile(Kept(check, fs, distance), file);
    DeduplicationIsLocal(Checked(check, fs), distance, file);
    CheckedOnFile(check, fs, file);
  }

  /** Finishing after any early work gives, file by file and verdicts aside, what validating and
      deduplicating the whole stage's proposals at once gives in some order. */
  lemma StreamingRefinesDeduplication(
      units: seq<Unit>, events: seq<Event>, proposals: seq<Finding>, work: Work, check: Check, distance: int)
    returns (order: seq<Finding>)
    requires Proper(units, events) && Prepares(work, check, distance) && KeepsFiles(check)
    requires FingerprintsNameFiles(Checked(check, proposals))
    ensures multiset(order) == multiset(proposals)
    ensures forall path :: OnFile(Bares(Finish(Run(units, events), proposals, work).output.findings), path)
                        == OnFile(Bares(Kept(check, order, distance)), path)
  {
    var files, e := GatherAll([], proposals), Finish(Run(units, events), proposals, work);
    var used := FinishPreparesEveryFile(units, events, proposals, work);
    GatherAllLooks([], proposals, 0);
    GatheredAllOf([], proposals);
    order := Flat(used, e.calls);
    OutputsOnFile(files, used, e.calls, work, 0, check, distance);
    assert multiset(order) == multiset(proposals);
    CheckedPermuted(check, proposals, order);
    forall path ensures OnFile(Bares(e.output.findings), path) == OnFile(Bares(Kept(check, order, distance)), path) {
      OutputsOnFile(files, used, e.calls, work, path, check, distance);
      KeptIsLocal(check, order, distance, path);
    }
  }
}
