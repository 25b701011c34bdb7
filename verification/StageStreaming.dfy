/** The stage's workers drive the stream: every unit is announced to it once. */
module StageStreaming {
  import opened Findings
  import Dedup
  import Stages
  import Streaming
  import StreamingRuns

  // The announcements so far, each with the proposals the stream is given for the unit.
  function Announcements(notified: seq<nat>, proposalsOf: nat -> seq<Finding>): (events: seq<StreamingRuns.Event>)
    ensures |events| == |notified|
    ensures forall i | 0 <= i < |events| :: events[i] == StreamingRuns.Event(notified[i], proposalsOf(notified[i]))
  {
    seq(|notified|, i requires 0 <= i < |notified| => StreamingRuns.Event(notified[i], proposalsOf(notified[i])))
  }

  lemma AnnouncementsAreProper(
      p: Stages.Pool, units: seq<Stages.Unit>, named: seq<Streaming.Unit>, proposalsOf: nat -> seq<Finding>)
    requires Stages.Accounted(p, units) && |named| == |units|
    ensures StreamingRuns.Proper(named, Announcements(p.notified, proposalsOf))
    ensures Stages.Over(p, units) ==>
              forall i | 0 <= i < |units| :: i in StreamingRuns.Done(Announcements(p.notified, proposalsOf))
  {
    var events := Announcements(p.notified, proposalsOf);
    forall e | e in events ensures e.unit < |named| {
      var k :| 0 <= k < |events| && events[k] == e;
      assert p.notified[k] in p.notified;
    }
    if Stages.Over(p, units) {
      forall i | 0 <= i < |units| ensures i in StreamingRuns.Done(events) {
        assert i !in p.working && i !in p.reporting;
        var k :| 0 <= k < |p.notified| && p.notified[k] == i;
        assert events[k] in events;
      }
    }
  }

  /** However the workers interleave, the stream is only ever told of distinct planned units;
      and once the stage is over, exactly the planned files with proposals have been started. */
  lemma StagesDriveStreams(
      units: seq<Stages.Unit>, workers: nat, steps: seq<Stages.Step>,
      named: seq<Streaming.Unit>, proposalsOf: nat -> seq<Finding>, path: Label)
    requires Stages.CacheCovers(units) && |named| == |units|
    ensures var events := Announcements(Stages.Run(Stages.Fresh(units), units, workers, steps).notified, proposalsOf);
            StreamingRuns.Proper(named, events)
            && (Stages.Over(Stages.Run(Stages.Fresh(units), units, workers, steps), units) ==>
                (path in StreamingRuns.Run(named, events).started <==>
                 (exists i | 0 <= i < |named| :: path in named[i].paths)
                 && Dedup.OnFile(StreamingRuns.Received(events), path) != []))
  {
    var p := Stages.Run(Stages.Fresh(units), units, workers, steps);
    Stages.WorkersKeepAccount(Stages.Fresh(units), units, workers, steps);
    AnnouncementsAreProper(p, units, named, proposalsOf);
    StreamingRuns.EarlyWorkStartsWhenSettled(named, Announcements(p.notified, proposalsOf), path);
  }
}
