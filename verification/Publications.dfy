/** The review's own publication of its messages, in one run with the owner's actions.

    The publisher posts without storing an intent first, and goes by what the reading of
    the forge shows instead of by the row's status. A publication whose reading shows
    nothing of the message therefore posts it, however often it was posted before.
 */
module Publications {
  import opened Sequences
  import opened Markers
  import opened Comments
  import opened CommentMarks
  import opened CommentProtocol
  import opened CommentMessages

  // What the configuration and the run's own choice come to; a render saves rows and sends nothing.
  datatype Mode = Applied | Drafting | Rendered

  // Where the publication of a message ends early: the process dies, or the head has moved.
  datatype Stop = Nowhere | BeforeSaving | BeforeSending | AfterSending

  // `taken` counts the places used by waiting drafts and by the comments this publication already made.
  datatype Publication = Publication(
    key: Key,
    body: string,
    file: string,
    mode: Mode,
    view: View,
    taken: nat,
    takenInFile: nat,
    stop: Stop,
    fate: Fate)

  datatype Published = Published(row: Option<Row>, calls: seq<Call>)

  datatype Event = Owner(op: Op) | Publisher(publication: Publication)

  predicate Marked(body: string, key: Key, bot: Bot) {
    OwnedBy(bot.owner, body) && Occurs(Mark(key, bot), body) && (key.Fingerprint? ==> |key.hash| == 32)
  }

  predicate ShowsPosted(x: (Discussion, Note), key: Key, bot: Bot) {
    x.1.author == bot.id && Marked(x.1.body, key, bot) && (key.Fingerprint? ==> !x.0.resolved)
  }

  // The reading shows the message posted, or waiting as a draft.
  predicate Seen(p: Publication, bot: Bot) { exists x <- Pairs(p.view.discussions) :: ShowsPosted(x, p.key, bot) }

  predicate Queued(p: Publication, bot: Bot) { exists n <- p.view.drafts :: Marked(n.body, p.key, bot) }

  predicate Room(p: Publication, env: Env) {
    var open := OpenComments(p.view);
    && |open| + p.taken < env.maxInline
    && SameFile(open, (d: Discussion) => d.file, Some(p.file)) + p.takenInFile < env.maxPerFile
  }

  predicate Withheld(row: Option<Row>) {
    row.Some? && (row.value.status.Removed? || row.value.intent == Some(RemoveIntent))
  }

  // An inline message the publisher leaves alone altogether.
  predicate Passed(row: Option<Row>, p: Publication, env: Env) {
    || Withheld(row)
    || Seen(p, env.bot)
    || (p.mode.Drafting? && Queued(p, env.bot))
    || !Room(p, env)
  }

  // A summary that is saved and not sent.
  predicate Kept(row: Option<Row>, p: Publication, env: Env) {
    Withheld(row) || if p.mode.Drafting? then Queued(p, env.bot) else Seen(p, env.bot)
  }

  function Remembered(row: Option<Row>, p: Publication): Row {
    var base := if row.Some? then row.value else Entry(p.body, NotPublished, false, None);
    if p.key.Summary? then base else base.(positioned := true, file := Some(p.file))
  }

  function Text(row: Option<Row>, p: Publication): string {
    if row.Some? && row.value.body != "" then row.value.body else p.body
  }

  function Answered(saved: Row, p: Publication): Row {
    match p.fate
    case Done(id, discussionId) =>
      if p.mode.Drafting? then saved.(status := Drafted, draftId := Some(id))
      else if p.key.Summary? then saved.(status := Committed, noteId := Some(id))
      else saved.(status := Committed, noteId := Some(id), discussionId := Some(discussionId), thread := Open)
    case Http(code) => if p.key.Fingerprint? && code == 400 then saved.(eligible := false) else saved
    case Unanswered => saved
  }

  function Publish(row: Option<Row>, p: Publication, env: Env): Published {
    if p.stop.BeforeSaving? || (p.key.Fingerprint? && Passed(row, p, env)) then Published(row, [])
    else
      var saved := Remembered(row, p);
      if p.mode.Rendered? || (p.key.Summary? && Kept(row, p, env)) || p.stop.BeforeSending? then
        Published(Some(saved), [])
      else
        var kind := if p.mode.Drafting? then QueueDraft(Text(row, p)) else Post(Text(row, p));
        var row := if p.stop.AfterSending? then saved else Answered(saved, p);
        Published(Some(row), [Call(p.key, kind, p.fate)])
  }

  function Saved(w: World, key: Key): Option<Row> { if key in w.table then Some(w.table[key]) else None }

  function AfterPublication(w: World, p: Publication, env: Env): World {
    var published := Publish(Saved(w, p.key), p, env);
    World(if published.row.Some? then w.table[p.key := published.row.value] else w.table, w.log + published.calls)
  }

  function After(w: World, e: Event, env: Env): World {
    match e case Owner(op) => Next(w, op, env) case Publisher(p) => AfterPublication(w, p, env)
  }

  function Through(w: World, events: seq<Event>, env: Env): World
    decreases events
  {
    if events == [] then w else Through(After(w, events[0], env), events[1..], env)
  }

  // ---- How many posts a run can make ---------------------------------------------------------

  // A publication for people that reads nothing of the message.
  predicate Blind(e: Event, key: Key, env: Env) {
    e.Publisher? && e.publication.key == key && e.publication.mode.Applied? && !Seen(e.publication, env.bot)
  }

  function BlindOnes(events: seq<Event>, key: Key, env: Env): nat {
    if events == [] then 0 else (if Blind(events[0], key, env) then 1 else 0) + BlindOnes(events[1..], key, env)
  }

  // The owner may still come to post the message; an untracked one has no say against it.
  predicate OwnerCanPost(row: Option<Row>) {
    row.Some? ==> row.value.status.NotPublished? && row.value.intent.None? && row.value.eligible && row.value.body != ""
  }

  // Neither the publisher nor the owner posts any more.
  predicate Closed(row: Option<Row>, key: Key, env: Env) {
    Capped(key, env) || (row.Some? && row.value.removedByOwner)
  }

  // One post for each blind publication, one more from the owner.
  function Slots(row: Option<Row>, key: Key, blind: nat, env: Env): nat {
    if Closed(row, key, env) then 0 else blind + if OwnerCanPost(row) then 1 else 0
  }

  ghost predicate Within(w: World, key: Key, env: Env, blind: nat, open: bool, closed: bool) {
    && RemovalsStored(w)
    && Posts(w.log, key) <= blind + (if open && !OwnerCanPost(Saved(w, key)) then 1 else 0)
    && (!open ==> !OwnerCanPost(Saved(w, key)))
    && (closed ==> Closed(Saved(w, key), key, env) && Posts(w.log, key) == 0)
  }

  // A publication changes the rows of removed messages in nothing that matters to the owner.
  lemma PublicationIsSafe(row: Option<Row>, p: Publication, env: Env)
    ensures var later := Publish(row, p, env);
            && |later.calls| <= 1 && (forall c <- later.calls :: c.key == p.key)
            && (row.Some? ==> later.row.Some? && later.row.value.removedByOwner == row.value.removedByOwner)
            && (row.None? && later.row.Some? ==> !later.row.value.removedByOwner)
            && (Withheld(row) ==>
                  later.row.value.status == row.value.status && later.row.value.intent == row.value.intent)
            && (OwnerCanPost(later.row) ==> OwnerCanPost(row))
            && (later.calls != [] && later.calls[0].kind.Post? ==>
                  p.mode.Applied? && !Seen(p, env.bot) && !Withheld(row) && !Capped(p.key, env))
  {
  }

  lemma PublicationKeepsRemovals(w: World, p: Publication, env: Env)
    requires RemovalsStored(w)
    ensures RemovalsStored(AfterPublication(w, p, env))
  {
    PublicationIsSafe(Saved(w, p.key), p, env);
  }

  lemma PublicationStaysWithin(w: World, p: Publication, env: Env, key: Key, blind: nat, open: bool, closed: bool)
    requires Within(w, key, env, blind, open, closed)
    ensures var more := if Blind(Publisher(p), key, env) then 1 else 0;
            Within(AfterPublication(w, p, env), key, env, blind + more, open, closed)
  {
    PublicationKeepsRemovals(w, p, env);
    PublicationIsSafe(Saved(w, p.key), p, env);
    PostsGrow(w.log, Publish(Saved(w, p.key), p, env).calls, key);
  }

  // An owner's post takes away the row's chance of another.
  lemma OwnerPostIsLast(row: Row, op: Op, key: Key, env: Env)
    ensures var e := StepRow(row, op, key, env); PostsLast(row, e.row, e.calls, key)
  {
    StepIsRowStep(row, op, key, env);
    if Blocked(row) {
      if row.status.NotPublished? {
        BlockedStep(row, op, key, env);
      }
    } else {
      RowStepPostsLast(row, StepRow(row, op, key, env).row, StepRow(row, op, key, env).calls, key);
    }
  }

  predicate PostsLast(before: Row, after: Row, calls: seq<Call>, key: Key) {
    && (OwnerCanPost(Some(after)) ==> OwnerCanPost(Some(before)))
    && forall c <- calls :: IsPost(c, key) ==> OwnerCanPost(Some(before)) && !OwnerCanPost(Some(after))
  }

  lemma RowStepPostsLast(before: Row, after: Row, calls: seq<Call>, key: Key)
    requires RowStep(before, after, calls, key) && !Blocked(before)
    ensures PostsLast(before, after, calls, key)
  {
    match before.intent
    case None =>
    case Some(PublishIntent) =>
    case Some(RemoveIntent) =>
  }

  lemma ClosedStep(row: Row, op: Op, key: Key, env: Env)
    requires Closed(Some(row), key, env) && (row.removedByOwner ==> Withdrawn(row))
    ensures var e := StepRow(row, op, key, env);
            (row.removedByOwner ==> e.row.removedByOwner) && forall c <- e.calls :: !IsPost(c, key)
  {
    StepIsRowStep(row, op, key, env);
    BarredStep(row, op, key, env);
  }

  lemma OwnerKeepsRemovals(w: World, op: Op, env: Env)
    requires RemovalsStored(w)
    ensures RemovalsStored(Next(w, op, env))
  {
    RemovalsStayStored(w, [op], env);
    assert Run(w, [op], env) == Run(Next(w, op, env), [], env);
  }

  lemma OwnerStaysWithin(w: World, op: Op, env: Env, key: Key, blind: nat, open: bool, closed: bool)
    requires Within(w, key, env, blind, open, closed)
    ensures Within(Next(w, op, env), key, env, blind, open, closed)
  {
    OwnerKeepsRemovals(w, op, env);
    TrackingKeepsRows(w.table, op, key);
    var calls, extra := NextRow(w, op, env, key);
    PostsGrow(w.log, extra, key);
    if key in Tracked(w.table, op) {
      NextIsStepRow(w, op, env, key);
      OwnerPostIsLast(Tracked(w.table, op)[key], op, key, env);
      if closed {
        ClosedStep(Tracked(w.table, op)[key], op, key, env);
      }
    }
  }

  lemma {:induction false} RunStaysWithin(w: World, events: seq<Event>, env: Env, key: Key, blind: nat, open: bool,
      closed: bool)
    requires Within(w, key, env, blind, open, closed)
    ensures Within(Through(w, events, env), key, env, blind + BlindOnes(events, key, env), open, closed)
    decreases events
  {
    if events != [] {
      match events[0] {
        case Owner(op) => OwnerStaysWithin(w, op, env, key, blind, open, closed);
        case Publisher(p) => PublicationStaysWithin(w, p, env, key, blind, open, closed);
      }
      var blind' := blind + if Blind(events[0], key, env) then 1 else 0;
      RunStaysWithin(After(w, events[0], env), events[1..], env, key, blind', open, closed);
    }
  }

  /** Publications and owner actions in any order post a message at most once for each
      publication that read nothing of it, and once more if its row still was the owner's to post. */
  lemma PostsBounded(w: World, events: seq<Event>, env: Env, key: Key)
    requires w.log == [] && RemovalsStored(w)
    ensures Posts(Through(w, events, env).log, key) <= Slots(Saved(w, key), key, BlindOnes(events, key, env), env)
  {
    assert Posts([], key) == 0;
    RunStaysWithin(w, events, env, key, 0, OwnerCanPost(Saved(w, key)), Closed(Saved(w, key), key, env));
  }

  // ---- Every slot can be used -----------------------------------------------------------------

  // A publication on an empty reading; what became of its post is not known.
  function Unseeing(key: Key, mode: Mode): Publication {
    Publication(key, "x", "", mode, View([], []), 0, 0, Nowhere, Unanswered)
  }

  function Repeated(p: Publication, count: nat): seq<Event> {
    if count == 0 then [] else [Publisher(p)] + Repeated(p, count - 1)
  }

  // Has room, reads nothing of the message and hears nothing of its post.
  predicate Unheard(p: Publication, key: Key, env: Env) {
    && Blind(Publisher(p), key, env) && p.stop.Nowhere? && p.fate.Unanswered?
    && (key.Fingerprint? ==> Room(p, env))
  }

  // Ready for blind publications, and for the owner's post when that is still open.
  ghost predicate Poised(w: World, key: Key, env: Env, open: bool) {
    && key in w.table && !Withheld(Some(w.table[key])) && !Closed(Some(w.table[key]), key, env)
    && (open ==> OwnerCanPost(Some(w.table[key])) && CanPost(w.table[key], key))
  }

  lemma ThroughAppend(w: World, a: seq<Event>, b: seq<Event>, env: Env, key: Key)
    ensures Through(w, a + b, env) == Through(Through(w, a, env), b, env)
    ensures BlindOnes(a + b, key, env) == BlindOnes(a, key, env) + BlindOnes(b, key, env)
    decreases a
  {
    if a == [] {
      assert a + b == b;
    } else {
      assert (a + b)[1..] == a[1..] + b;
      ThroughAppend(After(w, a[0], env), a[1..], b, env, key);
    }
  }

  lemma ThroughOne(w: World, e: Event, env: Env, key: Key)
    ensures Through(w, [e], env) == After(w, e, env)
    ensures BlindOnes([e], key, env) == if Blind(e, key, env) then 1 else 0
  {
    assert [e][1..] == [] && Through(After(w, e, env), [], env) == After(w, e, env);
  }

  lemma UnseeingHasRoom(key: Key, mode: Mode, env: Env)
    requires !Capped(key, env)
    ensures !Seen(Unseeing(key, mode), env.bot) && (key.Fingerprint? ==> Room(Unseeing(key, mode), env))
  {
  }

  // Rendering saves the row as it is, with a place to go to.
  lemma RenderingPoises(w: World, env: Env, key: Key)
    requires !Withheld(Saved(w, key)) && !Closed(Saved(w, key), key, env)
    ensures var later := After(w, Publisher(Unseeing(key, Rendered)), env);
            Poised(later, key, env, OwnerCanPost(Saved(w, key))) && later.log == w.log
  {
    UnseeingHasRoom(key, Rendered, env);
  }

  lemma UnheardPosts(w: World, p: Publication, env: Env, key: Key, open: bool)
    requires Poised(w, key, env, open) && Unheard(p, key, env)
    ensures var later := AfterPublication(w, p, env);
            Poised(later, key, env, open) && Posts(later.log, key) == Posts(w.log, key) + 1
  {
    PostsGrow(w.log, Publish(Saved(w, key), p, env).calls, key);
  }

  lemma {:induction false} RepeatedPosts(w: World, p: Publication, env: Env, key: Key, open: bool, count: nat)
    requires Poised(w, key, env, open) && Unheard(p, key, env)
    ensures var later := Through(w, Repeated(p, count), env);
            Poised(later, key, env, open) && Posts(later.log, key) == Posts(w.log, key) + count
    ensures BlindOnes(Repeated(p, count), key, env) == count
    decreases count
  {
    if count > 0 {
      var next := AfterPublication(w, p, env);
      UnheardPosts(w, p, env, key, open);
      RepeatedPosts(next, p, env, key, open, count - 1);
      ThroughFirst(w, p, Repeated(p, count - 1), env, key);
    }
  }

  lemma ThroughFirst(w: World, p: Publication, rest: seq<Event>, env: Env, key: Key)
    ensures Through(w, [Publisher(p)] + rest, env) == Through(AfterPublication(w, p, env), rest, env)
    ensures BlindOnes([Publisher(p)] + rest, key, env)
         == (if Blind(Publisher(p), key, env) then 1 else 0) + BlindOnes(rest, key, env)
  {
    ThroughOne(w, Publisher(p), env, key);
    ThroughAppend(w, [Publisher(p)], rest, env, key);
  }

  lemma OwnerPosts(w: World, env: Env, key: Key)
    requires Poised(w, key, env, true)
    ensures Posts(After(w, Owner(PublishWhen([], key)), env).log, key) == Posts(w.log, key) + 1
  {
    HiddenReadingPosts(w, env, key);
    PostsGrow(w.log, [Call(key, Post(w.table[key].body), Done(0, 0))], key);
  }

  // The note a stored row is about, or any note of the message when none is stored.
  function OwnCopyOf(row: Row, key: Key, bot: Bot): Note {
    Note(if row.noteId.Some? then row.noteId.value else 0, bot.id, OwnText(key, bot))
  }

  function Reappearing(n: Note): Op {
    Sync(NOTHING, View([], [Discussion(0, [n], false, false, None)]), Never)
  }

  lemma ReappearingIsRead(row: Row, key: Key, bot: Bot)
    requires row.status.Removed? && row.intent.None? && !row.removedByOwner
    ensures var later := SyncRow(row, key, Reappearing(OwnCopyOf(row, key, bot)).view, bot);
            later.status.Committed? && later.intent.None? && !later.removedByOwner
  {
    var n := OwnCopyOf(row, key, bot);
    var d := Discussion(0, [n], false, false, None);
    var view := View([], [d]);
    OwnTextIsOwn(key, bot);
    assert Pairs([d][1..]) == [] && NotesOf(d, d.notes) == [(d, n)] && Pairs([d]) == [(d, n)];
    FilterOne((x: (Discussion, Note)) => OwnNote(x.1, key, bot), (d, n));
    FilterOne((x: (Discussion, Note)) => row.noteId == Some(x.1.id), (d, n));
    assert OwnNotes(key, view, bot) == [(d, n)] && Matches(row, key, view, bot) == [(d, n)];
  }

  lemma HiddenReadingRemoves(row: Row, key: Key, bot: Bot)
    requires Withheld(Some(row)) && !row.removedByOwner
    ensures var later := SyncRow(row, key, View([], []), bot);
            later.status.Removed? && later.intent.None? && !later.removedByOwner && later.noteId == row.noteId
  {
    ReadingOf([], key, bot);
    assert Matches(row, key, View([], []), bot) == [] && OwnDrafts(key, View([], []), bot) == [];
  }

  // A message that is gone, or to be removed, without the owner's word comes back once it is shown again.
  lemma Returning(w: World, env: Env, key: Key) returns (events: seq<Event>)
    requires key in w.table && !w.table[key].removedByOwner
    ensures var later := Through(w, events, env);
            && later.log == w.log && key in later.table
            && !Withheld(Some(later.table[key])) && !later.table[key].removedByOwner
    ensures OwnerCanPost(Saved(Through(w, events, env), key)) == OwnerCanPost(Saved(w, key))
    ensures BlindOnes(events, key, env) == 0
  {
    if !Withheld(Some(w.table[key])) {
      return [];
    }
    var hidden := Hidden();
    var next := Next(w, hidden, env);
    var shown := Reappearing(OwnCopyOf(w.table[key], key, env.bot));
    NothingTracked(w.table, hidden);
    NextIsStepRow(w, hidden, env, key);
    HiddenReadingRemoves(w.table[key], key, env.bot);
    NothingTracked(next.table, shown);
    NextIsStepRow(next, shown, env, key);
    ReappearingIsRead(next.table[key], key, env.bot);
    ThroughOne(w, Owner(hidden), env, key);
    ThroughOne(next, Owner(shown), env, key);
    ThroughAppend(w, [Owner(hidden)], [Owner(shown)], env, key);
    return [Owner(hidden)] + [Owner(shown)];
  }

  lemma FinalPost(w: World, env: Env, key: Key, open: bool) returns (events: seq<Event>)
    requires Poised(w, key, env, open)
    ensures Posts(Through(w, events, env).log, key) == Posts(w.log, key) + if open then 1 else 0
    ensures BlindOnes(events, key, env) == 0
  {
    if !open {
      return [];
    }
    OwnerPosts(w, env, key);
    ThroughOne(w, Owner(PublishWhen([], key)), env, key);
    return [Owner(PublishWhen([], key))];
  }

  // From a row the publisher does not withhold.
  lemma AvailableSlotsAreUsed(w: World, env: Env, key: Key, blind: nat) returns (events: seq<Event>)
    requires !Withheld(Saved(w, key)) && !Closed(Saved(w, key), key, env)
    ensures Posts(Through(w, events, env).log, key) == Posts(w.log, key) + Slots(Saved(w, key), key, blind, env)
    ensures BlindOnes(events, key, env) == blind
  {
    var open := OwnerCanPost(Saved(w, key));
    var first, middle := [Publisher(Unseeing(key, Rendered))], Repeated(Unseeing(key, Applied), blind);
    RenderingPoises(w, env, key);
    ThroughOne(w, first[0], env, key);
    var rendered := Through(w, first, env);
    UnseeingHasRoom(key, Applied, env);
    RepeatedPosts(rendered, Unseeing(key, Applied), env, key, open, blind);
    var last := FinalPost(Through(rendered, middle, env), env, key, open);
    ThroughAppend(rendered, middle, last, env, key);
    ThroughAppend(w, first, middle + last, env, key);
    return first + (middle + last);
  }

  /** The bound is met: some run with that many blind publications uses every slot. */
  lemma SlotsAreUsed(w: World, env: Env, key: Key, blind: nat) returns (events: seq<Event>)
    requires w.log == []
    ensures BlindOnes(events, key, env) <= blind
    ensures Posts(Through(w, events, env).log, key) == Slots(Saved(w, key), key, blind, env)
  {
    assert Posts([], key) == 0;
    if Closed(Saved(w, key), key, env) {
      return [];
    }
    if !Withheld(Saved(w, key)) {
      events := AvailableSlotsAreUsed(w, env, key, blind);
      return;
    }
    var back := Returning(w, env, key);
    var rest := AvailableSlotsAreUsed(Through(w, back, env), env, key, blind);
    ThroughAppend(w, back, rest, env, key);
    events := back + rest;
  }

  /** With at most so many blind publications in a run, a message is certain to be posted at
      most once exactly when there is at most one slot. */
  lemma PostedOnceExactly(w: World, env: Env, key: Key, blind: nat)
    requires w.log == [] && RemovalsStored(w)
    ensures (forall events: seq<Event> | BlindOnes(events, key, env) <= blind ::
               Posts(Through(w, events, env).log, key) <= 1)
       <==> Slots(Saved(w, key), key, blind, env) <= 1
  {
    if Slots(Saved(w, key), key, blind, env) <= 1 {
      forall events: seq<Event> | BlindOnes(events, key, env) <= blind
        ensures Posts(Through(w, events, env).log, key) <= 1
      {
        PostsBounded(w, events, env, key);
      }
    } else {
      var events := SlotsAreUsed(w, env, key, blind);
    }
  }
}
