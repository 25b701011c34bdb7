/** The stream as the object the stage notifies, updated in place. */
module FileStreams {
  import opened Findings
  import opened Streaming
  import StreamingRuns

  class FileStream {
    var pending: map<Label, int>
    var plannedPaths: set<Label>
    var inputs: seq<Gathered>
    var started: map<Label, Task>
    var calls: seq<Call>

    ghost function State(): Stream
      reads this
    {
      Stream(pending, plannedPaths, inputs, started, calls)
    }

    constructor ()
      ensures State() == EMPTY
    {
      pending, plannedPaths, inputs, started, calls := map[], {}, [], map[], [];
    }

    method AddCounts(paths: seq<Label>, step: int)
      modifies this`pending
      ensures pending == Count(old(pending), paths, step)
    {
      for i := 0 to |paths|
        invariant Count(pending, paths[i..], step) == Count(old(pending), paths, step)
      {
        assert paths[i..][1..] == paths[i + 1..];
        pending := pending[paths[i] := At(pending, paths[i]) + step];
      }
    }

    method Plan(units: seq<Unit>)
      modifies this
      ensures State() == Planned(old(State()), units)
    {
      for u := 0 to |units|
        invariant Planned(State(), units[u..]) == Planned(old(State()), units)
      {
        assert units[u..][1..] == units[u + 1..];
        AddCounts(units[u].paths, 1);
        plannedPaths := plannedPaths + set p <- units[u].paths;
      }
    }

    method Finished(unit: Unit, proposals: seq<Finding>)
      modifies this
      ensures State() == Streaming.Finished(old(State()), unit, proposals)
    {
      inputs := GatherEach(inputs, proposals);
      AddCounts(unit.paths, -1);
      ghost var counted := State();
      for g := 0 to |inputs|
        invariant inputs == counted.inputs
        invariant BeginAll(State(), inputs[g..]) == BeginAll(counted, inputs)
      {
        var path, gathered := inputs[g].path, inputs[g].proposals;
        assert inputs[g..][0] == inputs[g] && inputs[g..][1..] == inputs[g + 1..];
        if path in plannedPaths && At(pending, path) <= 0 && path !in started {
          started := started[path := Task(multiset(gathered), |calls|)];
          calls := calls + [Call(path, gathered)];
        }
      }
    }

    // Every task in `started` was started by this stream.
    ghost predicate Tracked()
      reads this
    {
      forall path <- started :: started[path].call < |calls|
    }

    method Finish(proposals: seq<Finding>, work: StreamingRuns.Work) returns (output: Prepared, awaited: set<nat>)
      requires Tracked()
      modifies this
      ensures StreamingRuns.Finish(old(State()), proposals, work)
           == StreamingRuns.Ending(started, calls, awaited, output)
      ensures started == map[]
    {
      var files := GatherEach([], proposals);
      output, awaited := Prepared([], []), {};
      ghost var begin := StreamingRuns.Ending(started, calls, awaited, output);
      for g := 0 to |files|
        invariant Tracked()
        invariant StreamingRuns.SettleAll(StreamingRuns.Ending(started, calls, awaited, output), files[g..], work)
               == StreamingRuns.SettleAll(begin, files, work)
      {
        var path, items := files[g].path, files[g].proposals;
        assert files[g..][0] == files[g] && files[g..][1..] == files[g + 1..];
        ghost var was := StreamingRuns.Ending(started, calls, awaited, output);
        var result;
        if path in started && started[path].inputs == multiset(items) {
          var c := started[path].call;
          awaited, result := awaited + {c}, work(c, calls[c]);
        } else {
          if path in started {
            awaited := awaited + {started[path].call};
          }
          awaited, result := awaited + {|calls|}, work(|calls|, Call(path, items));
          calls := calls + [Call(path, items)];
        }
        started := started - {path};
        output := Prepared(output.findings + result.findings, output.discarded + result.discarded);
        ghost var now := StreamingRuns.Ending(started, calls, awaited, output);
        ghost var settled := StreamingRuns.Settle(was, files[g], work);
        assert now.awaited == settled.awaited && now.calls == settled.calls && now == settled;
      }
      awaited := awaited + set path <- started :: started[path].call;
      started := map[];
    }
  }

  method GatherEach(inputs: seq<Gathered>, proposals: seq<Finding>) returns (gathered: seq<Gathered>)
    ensures gathered == GatherAll(inputs, proposals)
  {
    gathered := inputs;
    for i := 0 to |proposals|
      invariant GatherAll(gathered, proposals[i..]) == GatherAll(inputs, proposals)
    {
      assert proposals[i..][1..] == proposals[i + 1..];
      gathered := Gather(gathered, proposals[i]);
    }
  }
}
