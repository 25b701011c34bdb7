/** The review store as an object whose transactions update rows in place. */
module ReviewStore {
  import opened Sequences
  import opened ReviewStates
  import opened Reviews

  datatype Admission = UnknownProject | Existing(id: nat) | Refused | Started(id: nat)

  lemma OnlyActive(reviews: seq<Review>, subject: Subject, i: nat)
    requires OneActive(reviews) && i < |reviews| && reviews[i].subject == subject && Active(reviews[i])
    ensures ActiveOn(reviews, subject) == Some(i)
  {
    var at := ActiveOn(reviews, subject);
    if at.Some? {
      assert i < at.value || at.value < i || at.value == i;
    }
  }

  class Store {
    var projects: set<Label>
    var reviews: seq<Review>

    ghost function State(): World
      reads this
    {
      World(projects, reviews)
    }

    constructor ()
      ensures State() == World({}, []) && Consistent(reviews)
    {
      projects, reviews := {}, [];
    }

    method FindEvent(event: Label) returns (at: Option<nat>)
      ensures at.Some? ==> at.value < |reviews| && reviews[at.value].event == event
      ensures at.Some? <==> Delivered(reviews, event)
    {
      for i := 0 to |reviews|
        invariant forall j | 0 <= j < i :: reviews[j].event != event
      {
        if reviews[i].event == event {
          return Some(i);
        }
      }
      return None;
    }

    method FindActive(subject: Subject) returns (at: Option<nat>)
      requires OneActive(reviews)
      ensures at == ActiveOn(reviews, subject)
    {
      for i := 0 to |reviews|
        invariant forall j | 0 <= j < i && reviews[j].subject == subject :: !Active(reviews[j])
      {
        if reviews[i].subject == subject && Active(reviews[i]) {
          OnlyActive(reviews, subject, i);
          return Some(i);
        }
      }
      return None;
    }

    // Highest sequence of a review's log plus one: the row lock makes it the next.
    method Record(id: nat, kind: Kind)
      requires id < |reviews| && Numbered(reviews[id].events)
      modifies this`reviews
      ensures reviews == old(reviews)[id := Recorded(old(reviews[id]), kind)]
    {
      var r := reviews[id];
      var highest := 0;
      assert r.events[..0] == [];
      for k := 0 to |r.events|
        invariant highest == Highest(r.events[..k])
      {
        assert r.events[..k + 1][..k] == r.events[..k];
        if r.events[k].sequence > highest {
          highest := r.events[k].sequence;
        }
      }
      assert r.events[..|r.events|] == r.events;
      reviews := reviews[id := r.(events := r.events + [Event(highest + 1, kind)])];
    }

    method Enter(id: nat, s: ReviewStates.State)
      requires id < |reviews| && Numbered(reviews[id].events)
      modifies this`reviews
      ensures reviews == old(reviews)[id := Entered(old(reviews[id]), s)]
    {
      var r := reviews[id];
      reviews := reviews[id := r.(state := s, history := r.history + [s])];
      Record(id, StateChange(s));
    }

    method Supersede(i: nat, successor: nat)
      requires i < |reviews| && Numbered(reviews[i].events)
      modifies this`reviews
      ensures reviews == old(reviews)[i := Replaced(old(reviews[i]), successor)]
    {
      Enter(i, Superseded);
      reviews := reviews[i := reviews[i].(supersededBy := Some(successor))];
    }

    method Start(q: Request) returns (id: nat)
      modifies this`reviews
      ensures id == |old(reviews)| && reviews == old(reviews) + [Fresh(q)]
    {
      id := |reviews|;
      reviews := reviews + [Review(q.subject, q.event, q.owner, q.head, Init, [Init], None, [])];
      Record(id, StateChange(Init));
    }

    method Accept(q: Request) returns (r: Admission)
      requires Consistent(reviews)
      modifies this`reviews
      ensures State() == Next(old(State()), Op.Accept(q))
      ensures match r
              case Existing(id) => State() == old(State()) && id < |reviews| && reviews[id].event == q.event
              case Started(id) => id == |old(reviews)| < |reviews| && reviews[id] == Fresh(q)
              case _ => State() == old(State())
      ensures r.UnknownProject? <==> q.subject.MergeRequest? && q.subject.project !in projects
    {
      if q.subject.MergeRequest? && q.subject.project !in projects {
        return UnknownProject;
      }
      var existing := FindEvent(q.event);
      if existing.Some? {
        return Existing(existing.value);
      }
      var active := FindActive(q.subject);
      if active.Some? {
        var i := active.value;
        if reviews[i].owner != q.owner && (!q.subject.MergeRequest? || !q.system || reviews[i].head == q.head) {
          return Refused;
        }
        Supersede(i, |reviews|);
      }
      var id := Start(q);
      return Started(id);
    }

    // `refused` is the error an illegal transition raises; nothing is written then.
    method Transition(id: nat, s: ReviewStates.State) returns (refused: bool)
      requires Consistent(reviews) && id < |reviews|
      modifies this`reviews
      ensures State() == Next(old(State()), Op.Move(id, s))
      ensures refused <==> !Terminal(old(reviews[id].state)) && !Legal(old(reviews[id].state), s)
    {
      var before := reviews[id].state;
      assert reviews[id := reviews[id]] == reviews;
      if Terminal(before) {
        return false;
      }
      if !Legal(before, s) {
        return true;
      }
      Enter(id, s);
      return false;
    }

    method Stop(id: nat) returns (stopped: bool)
      requires Consistent(reviews)
      modifies this`reviews
      ensures State() == Next(old(State()), Op.Stop(id))
      ensures stopped <==> id < |reviews| && !Terminal(old(reviews)[id].state) && !Unstoppable(old(reviews)[id].state)
    {
      if id >= |reviews| {
        return false;
      }
      assert reviews[id := reviews[id]] == reviews;
      if Terminal(reviews[id].state) || Unstoppable(reviews[id].state) {
        return false;
      }
      Enter(id, Cancelled);
      return true;
    }

    method AppendEvent(id: nat, text: Label)
      requires Consistent(reviews)
      modifies this`reviews
      ensures State() == Next(old(State()), Op.Append(id, text))
    {
      if id < |reviews| {
        Record(id, Note(text));
      }
    }

    // Two transactions: read the running review, then cancel it if it still runs.
    method Cancel(project: Label, iid: Label)
      requires Consistent(reviews)
      modifies this`reviews
      ensures State() == CancelledOn(old(State()), MergeRequest(project, iid))
    {
      var active := FindActive(MergeRequest(project, iid));
      if active.Some? {
        var _ := Transition(active.value, Cancelled);
      }
    }
  }

  function CancelledOn(w: World, subject: Subject): World {
    match ActiveOn(w.reviews, subject)
    case None => w
    case Some(i) => Next(w, Op.Move(i, Cancelled))
  }

  /** After a cancellation nothing runs on the merge request; other rows are untouched. */
  lemma CancellationEndsTheRunningReview(w: World, subject: Subject)
    requires Consistent(w.reviews)
    ensures var after := CancelledOn(w, subject).reviews;
            |after| == |w.reviews| && forall i | 0 <= i < |after| ::
              if w.reviews[i].subject == subject && Active(w.reviews[i])
              then after[i] == Entered(w.reviews[i], Cancelled) && !Active(after[i])
              else after[i] == w.reviews[i]
  {
    var at := ActiveOn(w.reviews, subject);
    if at.Some? {
      forall i | 0 <= i < |w.reviews| && w.reviews[i].subject == subject && Active(w.reviews[i])
        ensures i == at.value
      {
        OnlyActive(w.reviews, subject, i);
      }
    }
  }
}
