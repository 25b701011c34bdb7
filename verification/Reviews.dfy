/** Admission, supersession and transitions of reviews; each transaction is one step. */
module Reviews {
  import opened Sequences
  import opened ReviewStates

  // Projects, pages, owners, heads, delivered events and texts are compared for equality only.
  type Label = int

  datatype Subject = MergeRequest(project: Label, iid: Label) | Page(page: Label)

  datatype Kind = StateChange(state: State) | Note(text: Label)

  datatype Event = Event(sequence: nat, kind: Kind)

  // A review is known by its position in admission order; fresh ids never repeat.
  datatype Review = Review(
    subject: Subject,
    event: Label,
    owner: Option<Label>,
    head: Label,
    state: State,
    history: seq<State>,
    supersededBy: Option<nat>,
    events: seq<Event>)

  // `system` marks a forge event rather than a person's request; pages have none.
  datatype Request = Request(subject: Subject, event: Label, owner: Option<Label>, head: Label, system: bool)

  datatype World = World(projects: set<Label>, reviews: seq<Review>)

  datatype Op =
    | Provision(project: Label)
    | Accept(request: Request)
    | Move(id: nat, state: State)
    | Stop(id: nat)
    | Append(id: nat, text: Label)

  function Highest(events: seq<Event>): nat {
    if events == [] then 0
    else
      var rest := Highest(events[..|events| - 1]);
      if events[|events| - 1].sequence > rest then events[|events| - 1].sequence else rest
  }

  function Recorded(r: Review, kind: Kind): Review {
    r.(events := r.events + [Event(Highest(r.events) + 1, kind)])
  }

  function Entered(r: Review, s: State): Review {
    Recorded(r.(state := s, history := r.history + [s]), StateChange(s))
  }

  function Fresh(q: Request): Review {
    Recorded(Review(q.subject, q.event, q.owner, q.head, Init, [Init], None, []), StateChange(Init))
  }

  predicate Active(r: Review) { !Terminal(r.state) }

  function ActiveOn(reviews: seq<Review>, subject: Subject): (at: Option<nat>)
    ensures at.Some? ==> at.value < |reviews| && Active(reviews[at.value]) && reviews[at.value].subject == subject
    ensures at == None ==> forall i | 0 <= i < |reviews| && reviews[i].subject == subject :: !Active(reviews[i])
  {
    if reviews == [] then None
    else
      var last := |reviews| - 1;
      if Active(reviews[last]) && reviews[last].subject == subject then Some(last)
      else ActiveOn(reviews[..last], subject)
  }

  predicate Delivered(reviews: seq<Review>, event: Label) {
    exists i | 0 <= i < |reviews| :: reviews[i].event == event
  }

  // Another owner's running review gives way only to the forge reporting a new head.
  predicate Conflict(active: Review, q: Request) {
    active.owner != q.owner && !(q.subject.MergeRequest? && q.system && active.head != q.head)
  }

  function Admitted(w: World, q: Request): World {
    if q.subject.MergeRequest? && q.subject.project !in w.projects then w
    else if Delivered(w.reviews, q.event) then w
    else
      match ActiveOn(w.reviews, q.subject)
      case None => w.(reviews := w.reviews + [Fresh(q)])
      case Some(i) =>
        if Conflict(w.reviews[i], q) then w
        else w.(reviews := w.reviews[i := Replaced(w.reviews[i], |w.reviews|)] + [Fresh(q)])
  }

  function Replaced(r: Review, successor: nat): Review {
    Entered(r, Superseded).(supersededBy := Some(successor))
  }

  // A move the review has outlived is ignored; an illegal one is refused.
  function Moved(r: Review, s: State): Review {
    if Terminal(r.state) || !Legal(r.state, s) then r else Entered(r, s)
  }

  function Stopped(r: Review): Review {
    if Terminal(r.state) || Unstoppable(r.state) then r else Entered(r, Cancelled)
  }

  function Next(w: World, op: Op): World {
    match op
    case Provision(project) => w.(projects := w.projects + {project})
    case Accept(q) => Admitted(w, q)
    case Move(id, s) =>
      if id < |w.reviews| then w.(reviews := w.reviews[id := Moved(w.reviews[id], s)]) else w
    case Stop(id) =>
      if id < |w.reviews| then w.(reviews := w.reviews[id := Stopped(w.reviews[id])]) else w
    case Append(id, text) =>
      if id < |w.reviews| then w.(reviews := w.reviews[id := Recorded(w.reviews[id], Note(text))]) else w
  }

  function Run(w: World, ops: seq<Op>): World
    decreases ops
  {
    if ops == [] then w else Run(Next(w, ops[0]), ops[1..])
  }

  // ---- What a row always is -----------------------------------------------------------

  // The states an event log announces, in order.
  function Announced(events: seq<Event>): seq<State> {
    if events == [] then []
    else
      var rest, last := Announced(events[..|events| - 1]), events[|events| - 1];
      if last.kind.StateChange? then rest + [last.kind.state] else rest
  }

  predicate Numbered(events: seq<Event>) {
    forall k | 0 <= k < |events| :: events[k].sequence == k + 1
  }

  predicate Sound(r: Review) {
    r.history != [] && r.history[0] == Init && Path(r.history) && r.history[|r.history| - 1] == r.state
    && Announced(r.events) == r.history && Numbered(r.events) && TerminatedEarly !in r.history
    && (r.supersededBy != None ==> r.state == Superseded)
  }

  lemma {:induction false} HighestIsLength(events: seq<Event>)
    requires Numbered(events)
    ensures Highest(events) == |events|
  {
    if events != [] {
      HighestIsLength(events[..|events| - 1]);
    }
  }

  lemma RecordedKeeps(r: Review, kind: Kind)
    requires Numbered(r.events)
    ensures var e := Recorded(r, kind).events;
            Numbered(e) && r.events < e
            && Announced(e) == Announced(r.events) + if kind.StateChange? then [kind.state] else []
  {
    HighestIsLength(r.events);
    var e := Recorded(r, kind).events;
    assert e[..|e| - 1] == r.events && Announced(r.events) + [] == Announced(r.events);
  }

  lemma EnteredIsSound(r: Review, s: State)
    requires Sound(r) && Legal(r.state, s) && r.supersededBy == None
    ensures Sound(Entered(r, s))
  {
    RecordedKeeps(r.(state := s, history := r.history + [s]), StateChange(s));
    var h := r.history + [s];
    forall k | 0 <= k < |h| - 1 ensures Legal(h[k], h[k + 1]) {
      assert k < |r.history| - 1 ==> Legal(r.history[k], r.history[k + 1]);
    }
  }

  lemma FreshIsSound(q: Request)
    ensures Sound(Fresh(q))
  {
    RecordedKeeps(Review(q.subject, q.event, q.owner, q.head, Init, [Init], None, []), StateChange(Init));
  }

  lemma RecordedIsSound(r: Review, text: Label)
    requires Sound(r)
    ensures Sound(Recorded(r, Note(text)))
  {
    RecordedKeeps(r, Note(text));
    assert r.history + [] == r.history;
  }

  // How one step may change a row: never its identity, never a finished state.
  predicate Grown(before: Review, after: Review) {
    before.subject == after.subject && before.event == after.event && before.owner == after.owner
    && before.head == after.head && before.history <= after.history && before.events <= after.events
    && (Terminal(before.state) ==>
          after.state == before.state && after.history == before.history && after.supersededBy == before.supersededBy)
  }

  lemma EntryGrows(r: Review, s: State)
    requires Sound(r) && Legal(r.state, s)
    ensures Sound(Entered(r, s)) && Grown(r, Entered(r, s))
  {
    EnteredIsSound(r, s);
  }

  lemma MoveGrows(r: Review, s: State)
    requires Sound(r)
    ensures Sound(Moved(r, s)) && Grown(r, Moved(r, s))
  {
    if !Terminal(r.state) && Legal(r.state, s) {
      EntryGrows(r, s);
    }
  }

  lemma StopGrows(r: Review)
    requires Sound(r)
    ensures Sound(Stopped(r)) && Grown(r, Stopped(r))
  {
    if !Terminal(r.state) {
      EntryGrows(r, Cancelled);
    }
  }

  lemma ReplacementGrows(r: Review, successor: nat)
    requires Sound(r) && Active(r)
    ensures Sound(Replaced(r, successor)) && Grown(r, Replaced(r, successor))
  {
    EntryGrows(r, Superseded);
  }

  lemma RecordGrows(r: Review, text: Label)
    requires Sound(r)
    ensures Sound(Recorded(r, Note(text))) && Grown(r, Recorded(r, Note(text)))
  {
    RecordedIsSound(r, text);
  }

  predicate AllSound(reviews: seq<Review>) { forall i | 0 <= i < |reviews| :: Sound(reviews[i]) }

  predicate OneActive(reviews: seq<Review>) {
    forall i, j | 0 <= i < j < |reviews| && reviews[i].subject == reviews[j].subject ::
      !(Active(reviews[i]) && Active(reviews[j]))
  }

  predicate EventsOnce(reviews: seq<Review>) {
    forall i, j | 0 <= i < j < |reviews| :: reviews[i].event != reviews[j].event
  }

  // A superseded review points at a later review of the same merge request or page.
  predicate PointsForward(reviews: seq<Review>) {
    forall i | 0 <= i < |reviews| && reviews[i].supersededBy.Some? ::
      i < reviews[i].supersededBy.value < |reviews|
      && reviews[reviews[i].supersededBy.value].subject == reviews[i].subject
  }

  predicate Consistent(reviews: seq<Review>) {
    AllSound(reviews) && OneActive(reviews) && EventsOnce(reviews) && PointsForward(reviews)
  }

  predicate Follows(before: seq<Review>, after: seq<Review>) {
    Consistent(after) && AllGrown(before, after)
  }

  predicate AllGrown(before: seq<Review>, after: seq<Review>) {
    |before| <= |after| && forall i | 0 <= i < |before| :: Grown(before[i], after[i])
  }

  lemma ChangedFollows(reviews: seq<Review>, id: nat, r: Review)
    requires Consistent(reviews) && id < |reviews| && Sound(r) && Grown(reviews[id], r)
    requires r.supersededBy == reviews[id].supersededBy
    ensures Follows(reviews, reviews[id := r])
  {
  }

  // A new review for a subject nothing runs on.
  ghost predicate Starts(reviews: seq<Review>, f: Review) {
    && Sound(f) && f.supersededBy == None && !Delivered(reviews, f.event)
    && forall i | 0 <= i < |reviews| && reviews[i].subject == f.subject :: !Active(reviews[i])
  }

  lemma StartedOneActive(reviews: seq<Review>, f: Review)
    requires OneActive(reviews) && Starts(reviews, f)
    ensures OneActive(reviews + [f])
  {
  }

  lemma StartedSound(reviews: seq<Review>, f: Review)
    requires AllSound(reviews) && EventsOnce(reviews) && Starts(reviews, f)
    ensures AllSound(reviews + [f]) && EventsOnce(reviews + [f]) && AllGrown(reviews, reviews + [f])
  {
  }

  lemma StartedPointsForward(reviews: seq<Review>, f: Review)
    requires PointsForward(reviews) && Starts(reviews, f)
    ensures PointsForward(reviews + [f])
  {
  }

  lemma StartedFollows(reviews: seq<Review>, f: Review)
    requires Consistent(reviews) && Starts(reviews, f)
    ensures Follows(reviews, reviews + [f])
  {
    StartedOneActive(reviews, f);
    StartedSound(reviews, f);
    StartedPointsForward(reviews, f);
  }

  // The running review `i` makes way for `f`.
  ghost predicate MakesWay(reviews: seq<Review>, i: nat, ended: Review, f: Review) {
    i < |reviews| && reviews[i].subject == f.subject && Active(reviews[i])
    && Sound(ended) && Grown(reviews[i], ended) && !Active(ended) && ended.supersededBy == Some(|reviews|)
    && Sound(f) && f.supersededBy == None && !Delivered(reviews, f.event)
  }

  lemma ReplacedOneActive(reviews: seq<Review>, i: nat, ended: Review, f: Review)
    requires OneActive(reviews) && MakesWay(reviews, i, ended, f)
    ensures OneActive(reviews[i := ended] + [f])
  {
    var after := reviews[i := ended] + [f];
    forall j, k | 0 <= j < k < |after| && after[j].subject == after[k].subject
      ensures !(Active(after[j]) && Active(after[k]))
    {
      assert k == |reviews| && j < i ==> reviews[j].subject == reviews[i].subject;
      assert k == |reviews| && j > i ==> reviews[i].subject == reviews[j].subject;
    }
  }

  lemma ReplacedSound(reviews: seq<Review>, i: nat, ended: Review, f: Review)
    requires AllSound(reviews) && EventsOnce(reviews) && MakesWay(reviews, i, ended, f)
    ensures var after := reviews[i := ended] + [f];
            AllSound(after) && EventsOnce(after) && AllGrown(reviews, after)
  {
  }

  lemma ReplacedPointsForward(reviews: seq<Review>, i: nat, ended: Review, f: Review)
    requires PointsForward(reviews) && MakesWay(reviews, i, ended, f)
    ensures PointsForward(reviews[i := ended] + [f])
  {
  }

  lemma ReplacedFollows(reviews: seq<Review>, i: nat, ended: Review, f: Review)
    requires Consistent(reviews) && MakesWay(reviews, i, ended, f)
    ensures Follows(reviews, reviews[i := ended] + [f])
  {
    ReplacedOneActive(reviews, i, ended, f);
    ReplacedSound(reviews, i, ended, f);
    ReplacedPointsForward(reviews, i, ended, f);
  }

  lemma AdmittedFollows(w: World, q: Request)
    requires Consistent(w.reviews)
    ensures Follows(w.reviews, Admitted(w, q).reviews)
  {
    var at := ActiveOn(w.reviews, q.subject);
    if Admitted(w, q) == w {
      assert AllGrown(w.reviews, w.reviews);
    } else if at == None {
      FreshIsSound(q);
      StartedFollows(w.reviews, Fresh(q));
    } else {
      FreshIsSound(q);
      ReplacementGrows(w.reviews[at.value], |w.reviews|);
      var ended := Replaced(w.reviews[at.value], |w.reviews|);
      assert Admitted(w, q).reviews == w.reviews[at.value := ended] + [Fresh(q)];
      ReplacedFollows(w.reviews, at.value, ended, Fresh(q));
    }
  }

  lemma UnchangedFollows(reviews: seq<Review>)
    requires Consistent(reviews)
    ensures Follows(reviews, reviews)
  {
  }

  lemma MovedFollows(reviews: seq<Review>, id: nat, s: State)
    requires Consistent(reviews) && id < |reviews|
    ensures Follows(reviews, reviews[id := Moved(reviews[id], s)])
  {
    MoveGrows(reviews[id], s);
    ChangedFollows(reviews, id, Moved(reviews[id], s));
  }

  lemma StoppedFollows(reviews: seq<Review>, id: nat)
    requires Consistent(reviews) && id < |reviews|
    ensures Follows(reviews, reviews[id := Stopped(reviews[id])])
  {
    StopGrows(reviews[id]);
    ChangedFollows(reviews, id, Stopped(reviews[id]));
  }

  lemma RecordedFollows(reviews: seq<Review>, id: nat, text: Label)
    requires Consistent(reviews) && id < |reviews|
    ensures Follows(reviews, reviews[id := Recorded(reviews[id], Note(text))])
  {
    RecordGrows(reviews[id], text);
    ChangedFollows(reviews, id, Recorded(reviews[id], Note(text)));
  }

  lemma NextFollows(w: World, op: Op)
    requires Consistent(w.reviews)
    ensures Follows(w.reviews, Next(w, op).reviews)
  {
    UnchangedFollows(w.reviews);
    match op
    case Provision(_) =>
    case Accept(q) => AdmittedFollows(w, q);
    case Move(id, s) => if id < |w.reviews| { MovedFollows(w.reviews, id, s); }
    case Stop(id) => if id < |w.reviews| { StoppedFollows(w.reviews, id); }
    case Append(id, text) => if id < |w.reviews| { RecordedFollows(w.reviews, id, text); }
  }

  /** In every state any sequence of transactions reaches: at most one review of a merge
      request or page is running, event ids are admitted once, every history is a legal path
      from INIT to the current state that the numbered event log announces exactly, and
      supersession points forward; and rows only ever grow, finished ones never moving again. */
  lemma {:induction false} RunsStayConsistent(w: World, ops: seq<Op>)
    requires Consistent(w.reviews)
    ensures Follows(w.reviews, Run(w, ops).reviews)
    decreases ops
  {
    if ops != [] {
      var next := Next(w, ops[0]);
      NextFollows(w, ops[0]);
      RunsStayConsistent(next, ops[1..]);
      forall i | 0 <= i < |w.reviews| ensures Grown(w.reviews[i], Run(w, ops).reviews[i]) {
        assert Grown(w.reviews[i], next.reviews[i]) && Grown(next.reviews[i], Run(next, ops[1..]).reviews[i]);
      }
    }
  }

  /** An event id that was admitted once changes nothing when delivered again, ever after. */
  lemma RedeliveryChangesNothing(w: World, ops: seq<Op>, q: Request)
    requires Consistent(w.reviews) && Delivered(w.reviews, q.event)
    ensures Admitted(Run(w, ops), q) == Run(w, ops)
  {
    RunsStayConsistent(w, ops);
    var i :| 0 <= i < |w.reviews| && w.reviews[i].event == q.event;
    assert Run(w, ops).reviews[i].event == q.event;
  }

  /** Following supersession ends, at a review of the same subject nothing supersedes. */
  function Latest(reviews: seq<Review>, i: nat): (last: nat)
    requires PointsForward(reviews) && i < |reviews|
    ensures i <= last < |reviews| && reviews[last].supersededBy == None
    ensures reviews[last].subject == reviews[i].subject
    decreases |reviews| - i
  {
    if reviews[i].supersededBy.Some? then Latest(reviews, reviews[i].supersededBy.value) else i
  }

  /** Admission starts a review exactly when its project is known, its event is new and no
      running review of another owner stands in the way; a review it displaces is the
      running one, which ends superseded by the new one. */
  lemma AdmissionDecides(w: World, q: Request)
    requires Consistent(w.reviews)
    ensures var after, n := Admitted(w, q), |w.reviews|;
            (|after.reviews| > n <==>
             (q.subject.Page? || q.subject.project in w.projects) && !Delivered(w.reviews, q.event)
             && forall i | 0 <= i < n && w.reviews[i].subject == q.subject && Active(w.reviews[i]) ::
                  !Conflict(w.reviews[i], q))
            && (|after.reviews| > n ==>
                |after.reviews| == n + 1 && after.reviews[n] == Fresh(q)
                && forall i | 0 <= i < n ::
                     after.reviews[i] == if w.reviews[i].subject == q.subject && Active(w.reviews[i])
                                         then Replaced(w.reviews[i], n) else w.reviews[i])
            && (|after.reviews| == n ==> after == w)
  {
    var at := ActiveOn(w.reviews, q.subject);
    if at.Some? {
      forall i | 0 <= i < |w.reviews| && w.reviews[i].subject == q.subject && Active(w.reviews[i])
        ensures i == at.value
      {
        assert i < at.value || at.value < i || i == at.value;
      }
    }
  }

  /** A transaction other than the runner's own moves either leaves a working review's state
      alone or ends the review. */
  lemma OthersOnlyEndReviews(w: World, op: Op, id: nat)
    requires Consistent(w.reviews) && id < |w.reviews| && Active(w.reviews[id])
    requires op.Move? && op.id == id ==> op.state == Cancelled
    ensures var s := Next(w, op).reviews[id].state;
            s == w.reviews[id].state || s == Cancelled || s == Superseded
    ensures op.Stop? && Unstoppable(w.reviews[id].state) ==> Next(w, op).reviews[id] == w.reviews[id]
  {
  }
}
