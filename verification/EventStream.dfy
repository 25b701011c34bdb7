/** A reader following a review's event log through batches, lost connections and reconnects. */
module EventStream {
  import opened Sequences
  import opened ReviewStates
  import opened Reviews

  const BATCH: nat := 200

  // Events after a sequence number, in order, at most `limit` of them.
  function Select(log: seq<Event>, after: nat, limit: nat): seq<Event> {
    if log == [] || limit == 0 then []
    else if log[0].sequence > after then [log[0]] + Select(log[1..], after, limit - 1)
    else Select(log[1..], after, limit)
  }

  // `total` is not sent: it notes how long the log was when the server read its last batch.
  datatype Frame = Activity(event: Event) | Complete(total: nat)

  // One connection's server side; `seen` is the state read at the start of a pass.
  datatype Server = Off | Serving(after: nat, seen: Option<State>)

  // The page: what it has shown, the id it resumes from, and whether it was told to stop.
  datatype Reader = Reader(shown: seq<Event>, cursor: nat, completed: Option<nat>)

  datatype Link = Link(row: Review, server: Server, channel: seq<Frame>, reader: Reader)

  datatype Step =
    | Write(row: Review)         // transactions changed the review's row
    | Connect                    // the page connects, resuming at its cursor
    | ReadState                  // the server reads the row's state
    | ReadEvents(closing: bool)  // and then a batch of events; `closing`: its worker still writes
    | Deliver                    // the page receives the next frame
    | Lose                       // the connection breaks; frames under way are lost

  function Activities(events: seq<Event>): seq<Frame> {
    if events == [] then [] else [Activity(events[0])] + Activities(events[1..])
  }

  function Received(r: Reader, f: Frame): Reader {
    match f
    case Activity(e) =>
      if e.sequence > r.cursor then r.(shown := r.shown + [e], cursor := e.sequence) else r
    case Complete(total) => r.(completed := Some(total))
  }

  function Pass(l: Link, closing: bool): Link
    requires l.server.Serving? && l.server.seen.Some?
  {
    var rows := Select(l.row.events, l.server.after, BATCH);
    var after := if rows == [] then l.server.after else rows[|rows| - 1].sequence;
    if |rows| < BATCH && Terminal(l.server.seen.value) && !closing
    then l.(server := Off, channel := l.channel + Activities(rows) + [Complete(|l.row.events|)])
    else l.(server := Serving(after, None), channel := l.channel + Activities(rows))
  }

  function Next(l: Link, step: Step): Link {
    match step
    case Write(row) => l.(row := row)
    case Connect => l.(server := Serving(l.reader.cursor, None), channel := [])
    case ReadState => if l.server.Serving? then l.(server := l.server.(seen := Some(l.row.state))) else l
    case ReadEvents(closing) => if l.server.Serving? && l.server.seen.Some? then Pass(l, closing) else l
    case Deliver =>
      if l.channel == [] then l else l.(channel := l.channel[1..], reader := Received(l.reader, l.channel[0]))
    case Lose => l.(server := Off, channel := [])
  }

  // Rows only change as the store lets them.
  ghost predicate Allowed(l: Link, step: Step) {
    step.Write? ==> Sound(step.row) && Grown(l.row, step.row)
  }

  ghost predicate AllAllowed(l: Link, steps: seq<Step>)
    decreases steps
  {
    steps == [] || (Allowed(l, steps[0]) && AllAllowed(Next(l, steps[0]), steps[1..]))
  }

  function Run(l: Link, steps: seq<Step>): Link
    decreases steps
  {
    if steps == [] then l else Run(Next(l, steps[0]), steps[1..])
  }

  // ---- Batches are slices -----------------------------------------------------------------

  predicate From(log: seq<Event>, first: nat) { forall k | 0 <= k < |log| :: log[k].sequence == first + k + 1 }

  lemma {:induction false} SelectIsSlice(log: seq<Event>, first: nat, after: nat, limit: nat)
    requires From(log, first) && after <= first + |log|
    ensures var skip := if after > first then after - first else 0;
            Select(log, after, limit) == log[skip..][..Min(limit, |log| - skip)]
    decreases log
  {
    if log != [] && limit > 0 {
      if after > first {
        SelectIsSlice(log[1..], first + 1, after, limit);
        assert log[1..][after - first - 1..] == log[after - first..];
      } else {
        SelectIsSlice(log[1..], first + 1, after, limit - 1);
        assert log[0..] == log && log[1..][0..] == log[1..];
      }
    }
  }

  // ---- What holds throughout -----------------------------------------------------------------

  // The log's terminal transition lies within its first `upto` events.
  predicate Ended(log: seq<Event>, upto: nat) {
    exists k | 0 <= k < upto && k < |log| :: log[k].kind.StateChange? && Terminal(log[k].kind.state)
  }

  predicate Closed(channel: seq<Frame>) { channel != [] && channel[|channel| - 1].Complete? }

  // How far the log has been shown or is under way.
  function Upto(l: Link): int {
    l.reader.cursor + |l.channel| - if Closed(l.channel) then 1 else 0
  }

  // The frames under way are the log from the cursor on, then perhaps the closing frame.
  predicate Carries(channel: seq<Frame>, log: seq<Event>, from: nat, upto: int) {
    from <= upto <= |log| && upto - from <= |channel|
    && (forall i | 0 <= i < upto - from :: channel[i] == Activity(log[from + i]))
    && (Closed(channel) ==> Ended(log, upto) && channel[|channel| - 1].total == upto)
  }

  predicate Faithful(l: Link) {
    Sound(l.row) && l.reader.cursor <= |l.row.events| && l.reader.shown == l.row.events[..l.reader.cursor]
    && (l.reader.completed.Some? ==>
          l.reader.completed.value <= l.reader.cursor && Ended(l.row.events, l.reader.completed.value))
    && Carries(l.channel, l.row.events, l.reader.cursor, Upto(l))
    && (l.server.Serving? ==> l.server.after == Upto(l) && !Closed(l.channel))
    && (l.server.Serving? && l.server.seen.Some? && Terminal(l.server.seen.value) ==> Terminal(l.row.state))
  }

  lemma {:induction false} ActivitiesAre(events: seq<Event>)
    ensures |Activities(events)| == |events|
    ensures forall i | 0 <= i < |events| :: Activities(events)[i] == Activity(events[i])
  {
    if events != [] {
      ActivitiesAre(events[1..]);
    }
  }

  // A finished review's log announces its terminal state.
  lemma {:induction false} AnnouncedSomewhere(events: seq<Event>)
    requires Announced(events) != [] && Terminal(Announced(events)[|Announced(events)| - 1])
    ensures Ended(events, |events|)
  {
    var last := |events| - 1;
    if !events[last].kind.StateChange? {
      AnnouncedSomewhere(events[..last]);
      var k :| 0 <= k < last && events[..last][k].kind.StateChange? && Terminal(events[..last][k].kind.state);
      assert events[k].kind.StateChange? && Terminal(events[k].kind.state);
    }
  }

  lemma EndedGrows(log: seq<Event>, more: seq<Event>, upto: nat, further: nat)
    requires Ended(log, upto) && log <= more && upto <= further
    ensures Ended(more, further)
  {
    var k :| 0 <= k < upto && k < |log| && log[k].kind.StateChange? && Terminal(log[k].kind.state);
    assert more[k] == log[k];
  }

  lemma WriteStaysFaithful(l: Link, row: Review)
    requires Faithful(l) && Sound(row) && Grown(l.row, row)
    ensures Faithful(l.(row := row))
  {
    if l.reader.completed.Some? {
      EndedGrows(l.row.events, row.events, l.reader.completed.value, l.reader.completed.value);
    }
    if Closed(l.channel) {
      EndedGrows(l.row.events, row.events, Upto(l), Upto(l));
    }
  }

  // A batch continues the log where the frames under way stop.
  lemma BatchContinues(channel: seq<Frame>, log: seq<Event>, from: nat, after: nat)
    requires Carries(channel, log, from, after) && !Closed(channel) && |channel| == after - from && From(log, 0)
    ensures var rows := Select(log, after, BATCH);
            |rows| == Min(BATCH, |log| - after) && |Activities(rows)| == |rows|
            && (rows != [] ==> rows[|rows| - 1].sequence == after + |rows|)
            && (forall i | 0 <= i < after + |rows| - from :: (channel + Activities(rows))[i] == Activity(log[from + i]))
            && !Closed(channel + Activities(rows))
  {
    var rows := Select(log, after, BATCH);
    SelectIsSlice(log, 0, after, BATCH);
    ActivitiesAre(rows);
    assert forall i | 0 <= i < |rows| :: rows[i] == log[after + i];
  }

  // A short batch reaches the end of the log, which on a finished review holds its end.
  lemma LastPassEnds(l: Link, rows: seq<Event>)
    requires Faithful(l) && l.server.Serving? && l.server.seen.Some? && Terminal(l.server.seen.value)
    requires |rows| == Min(BATCH, |l.row.events| - l.server.after) && |rows| < BATCH
    ensures l.server.after + |rows| == |l.row.events| && Ended(l.row.events, |l.row.events|)
  {
    AnnouncedSomewhere(l.row.events);
  }

  lemma OpenPassStaysFaithful(l: Link, closing: bool)
    requires Faithful(l) && l.server.Serving? && l.server.seen.Some? && Pass(l, closing).server.Serving?
    ensures Faithful(Pass(l, closing))
  {
    BatchContinues(l.channel, l.row.events, l.reader.cursor, l.server.after);
  }

  lemma ClosingPassStaysFaithful(l: Link, closing: bool)
    requires Faithful(l) && l.server.Serving? && l.server.seen.Some? && Pass(l, closing).server.Off?
    ensures Faithful(Pass(l, closing))
  {
    var rows := Select(l.row.events, l.server.after, BATCH);
    BatchContinues(l.channel, l.row.events, l.reader.cursor, l.server.after);
    LastPassEnds(l, rows);
    assert Closed(Pass(l, closing).channel);
  }

  lemma PassStaysFaithful(l: Link, closing: bool)
    requires Faithful(l) && l.server.Serving? && l.server.seen.Some?
    ensures Faithful(Pass(l, closing))
  {
    if Pass(l, closing).server.Serving? {
      OpenPassStaysFaithful(l, closing);
    } else {
      ClosingPassStaysFaithful(l, closing);
    }
  }

  lemma DeliverStaysFaithful(l: Link)
    requires Faithful(l) && l.channel != []
    ensures Faithful(Next(l, Deliver))
  {
    var next, rest := Next(l, Deliver), l.channel[1..];
    assert rest != [] ==> rest[|rest| - 1] == l.channel[|l.channel| - 1];
    if l.channel[0].Activity? {
      var e := l.row.events[l.reader.cursor];
      assert l.channel[0] == Activity(e) && e.sequence == l.reader.cursor + 1;
      assert l.row.events[..l.reader.cursor] + [e] == l.row.events[..l.reader.cursor + 1];
      forall i | 0 <= i < Upto(next) - next.reader.cursor
        ensures rest[i] == Activity(l.row.events[next.reader.cursor + i])
      {
        assert rest[i] == l.channel[i + 1];
      }
    } else {
      assert Upto(l) == l.reader.cursor;
    }
  }

  lemma NextStaysFaithful(l: Link, step: Step)
    requires Faithful(l) && Allowed(l, step)
    ensures Faithful(Next(l, step))
  {
    match step
    case Write(row) => WriteStaysFaithful(l, row);
    case ReadEvents(closing) =>
      if l.server.Serving? && l.server.seen.Some? {
        PassStaysFaithful(l, closing);
      }
    case Deliver =>
      if l.channel != [] {
        DeliverStaysFaithful(l);
      }
    case _ =>
  }

  lemma {:induction false} RunStaysFaithful(l: Link, steps: seq<Step>)
    requires Faithful(l) && AllAllowed(l, steps)
    ensures Faithful(Run(l, steps))
    decreases steps
  {
    if steps != [] {
      NextStaysFaithful(l, steps[0]);
      RunStaysFaithful(Next(l, steps[0]), steps[1..]);
    }
  }

  /** Whatever is appended meanwhile and however often the connection breaks: what the page
      has shown is exactly the log's first events, each once and in sequence order, and once
      it is told the review is complete it has shown everything that was in the log when the
      server last read it, the terminal transition included. */
  lemma ReadersSeeTheLog(row: Review, steps: seq<Step>)
    requires Sound(row) && AllAllowed(Link(row, Off, [], Reader([], 0, None)), steps)
    ensures var l := Run(Link(row, Off, [], Reader([], 0, None)), steps);
            && l.reader.shown <= l.row.events && |l.reader.shown| == l.reader.cursor
            && (l.reader.completed.Some? ==>
                  l.reader.completed.value <= |l.reader.shown| && Ended(l.reader.shown, l.reader.completed.value))
  {
    var begin := Link(row, Off, [], Reader([], 0, None));
    RunStaysFaithful(begin, steps);
    var l := Run(begin, steps);
    if l.reader.completed.Some? {
      var total := l.reader.completed.value;
      var k :| 0 <= k < total && l.row.events[k].kind.StateChange? && Terminal(l.row.events[k].kind.state);
      assert l.reader.shown[k] == l.row.events[k];
    }
  }

  // ---- Left alone, a reader catches up ---------------------------------------------------------

  function Delivers(k: nat): seq<Step> { if k == 0 then [] else [Deliver] + Delivers(k - 1) }

  lemma {:induction false} RunAppend(l: Link, a: seq<Step>, b: seq<Step>)
    ensures Run(l, a + b) == Run(Run(l, a), b)
    decreases a
  {
    if a == [] {
      assert a + b == b;
    } else {
      assert (a + b)[1..] == a[1..] + b;
      RunAppend(Next(l, a[0]), a[1..], b);
    }
  }

  // Delivering everything under way shows the log up to there, and the closing frame if any.
  ghost predicate Delivered(l: Link, e: Link) {
    Faithful(e) && e.row == l.row && e.server == l.server && e.channel == [] && e.reader.cursor == Upto(l)
    && (Closed(l.channel) || l.reader.completed.Some? ==> e.reader.completed.Some?)
  }

  lemma {:induction false} DeliversAll(l: Link)
    requires Faithful(l)
    ensures Delivered(l, Run(l, Delivers(|l.channel|)))
    decreases |l.channel|
  {
    if l.channel != [] {
      var next := Next(l, Deliver);
      DeliverStaysFaithful(l);
      DeliverKeepsEnd(l);
      DeliversAll(next);
      assert Delivers(|l.channel|)[1..] == Delivers(|next.channel|);
    }
  }

  // One frame less is under way, up to the same place.
  lemma DeliverKeepsEnd(l: Link)
    requires Faithful(l) && l.channel != []
    ensures var next := Next(l, Deliver);
            && Upto(next) == Upto(l) && next.row == l.row && next.server == l.server
            && |next.channel| == |l.channel| - 1
            && (Closed(l.channel) || l.reader.completed.Some? ==> Closed(next.channel) || next.reader.completed.Some?)
  {
    var rest := l.channel[1..];
    assert rest != [] ==> rest[|rest| - 1] == l.channel[|l.channel| - 1];
    if l.channel[0].Activity? {
      assert l.channel[0] == Activity(l.row.events[l.reader.cursor]);
    }
  }

  // One undisturbed pass and the delivery of its frames.
  function Round(l: Link): Link
    requires l.server.Serving?
  {
    var passed := Pass(l.(server := l.server.(seen := Some(l.row.state))), false);
    Run(passed, Delivers(|passed.channel|))
  }

  lemma RoundRuns(l: Link) returns (steps: seq<Step>)
    requires l.server.Serving?
    ensures Run(l, steps) == Round(l)
  {
    var read := Next(l, ReadState);
    var passed := Next(read, ReadEvents(false));
    var front := [ReadState, ReadEvents(false)];
    steps := front + Delivers(|passed.channel|);
    assert front[1..] == [ReadEvents(false)] && front[1..][1..] == [];
    assert Run(l, front) == Run(read, front[1..]) == passed;
    RunAppend(l, front, Delivers(|passed.channel|));
  }

  lemma RoundAdvances(l: Link)
    requires Faithful(l) && l.server.Serving? && l.channel == []
    ensures var e, n := Round(l), |l.row.events|;
            Faithful(e) && e.row == l.row && e.channel == []
            && e.reader.cursor == l.reader.cursor + Min(BATCH, n - l.reader.cursor)
            && (e.reader.cursor == n && n - l.reader.cursor < BATCH && Terminal(l.row.state) ==>
                  e.reader.completed.Some?)
            && (n - l.reader.cursor >= BATCH ==> e.server.Serving?)
  {
    var read := l.(server := l.server.(seen := Some(l.row.state)));
    var passed := Pass(read, false);
    BatchContinues(read.channel, l.row.events, l.reader.cursor, l.server.after);
    PassStaysFaithful(read, false);
    DeliversAll(passed);
  }

  /** From wherever a reader is, connecting and letting the server make its passes while
      nothing is written shows the whole log, whatever its length, and on a finished review
      ends in the closing frame. */
  lemma ReadersCatchUp(l: Link) returns (steps: seq<Step>)
    requires Faithful(l)
    ensures var e := Run(l, steps);
            e.row == l.row && e.reader.shown == l.row.events && (Terminal(l.row.state) ==> e.reader.completed.Some?)
  {
    var connected := Next(l, Connect);
    NextStaysFaithful(l, Connect);
    var rest := CatchUp(connected);
    steps := [Connect] + rest;
    assert steps[1..] == rest;
  }

  lemma {:induction false} CatchUp(l: Link) returns (steps: seq<Step>)
    requires Faithful(l) && l.server.Serving? && l.channel == []
    ensures var e := Run(l, steps);
            e.row == l.row && e.reader.shown == l.row.events && (Terminal(l.row.state) ==> e.reader.completed.Some?)
    decreases |l.row.events| - l.reader.cursor
  {
    steps := RoundRuns(l);
    RoundAdvances(l);
    if |l.row.events| - l.reader.cursor >= BATCH {
      var rest := CatchUp(Round(l));
      RunAppend(l, steps, rest);
      steps := steps + rest;
    }
  }
}
