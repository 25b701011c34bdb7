/** What is left in the forge when an owner's removal settles.

    Here the forge is a store of its own: every reading shows a part of it, every call that
    lands changes it, and others may add messages at any time. A removal settles on the
    first reading that shows nothing to delete, so whatever that reading hid stays.
 */
module CommentRemovals {
  import opened Sequences
  import opened Markers
  import opened Comments
  import opened CommentMarks
  import opened CommentProtocol

  // What the forge holds, whatever a reading shows of it.
  datatype Remote = Remote(notes: map<Id, Note>, drafts: map<Id, Draft>)

  datatype Scene = Scene(world: World, remote: Remote)

  // One step of the program, whose call lands or not, or messages added by others.
  datatype Event = Step(op: Op, landed: bool, newId: Id) | Arrive(more: Remote)

  ghost predicate Shown(view: View, remote: Remote) {
    && (forall x <- Pairs(view.discussions) :: x.1.id in remote.notes && remote.notes[x.1.id] == x.1)
    && (forall n <- view.drafts :: n.id in remote.drafts && remote.drafts[n.id] == n)
  }

  // A personal account signs what it posts.
  function Signed(body: string, bot: Bot): string {
    match bot.owner case None => body case Some(owner) => body + "\n\n" + OwnerMark(owner)
  }

  function Landed(remote: Remote, c: Call, newId: Id, bot: Bot): Remote {
    var notes, drafts := remote.notes, remote.drafts;
    match c.kind
    case Post(body) => remote.(notes := notes[newId := Note(newId, bot.id, Signed(body, bot))])
    case PublishDraft(Some(id)) =>
      if id in drafts then Remote(notes[newId := Note(newId, bot.id, drafts[id].body)], drafts - {id}) else remote
    case DeleteNote(Some(id)) => remote.(notes := notes - {id})
    case DeleteDraft(Some(id)) => remote.(drafts := drafts - {id})
    case EditNote(Some(id), body) =>
      if id in notes then remote.(notes := notes[id := notes[id].(body := body)]) else remote
    case EditDraft(Some(id), body) =>
      if id in drafts then remote.(drafts := drafts[id := drafts[id].(body := body)]) else remote
    case _ => remote
  }

  // What an answer tells of the call; a lost answer tells nothing.
  predicate Consistent(c: Call, landed: bool, newId: Id) {
    && (c.fate.Done? ==> landed)
    && (ClientError(c.fate) ==> !landed)
    && (c.kind.Post? && c.fate.Done? ==> c.fate.noteId == newId)
  }

  ghost predicate Possible(s: Scene, e: Event, env: Env) {
    match e
    case Step(op, landed, newId) =>
      && Shown(op.view, s.remote) && newId !in s.remote.notes
      && forall c <- Made(s.world, op, env) :: Consistent(c, landed, newId)
    case Arrive(more) =>
      && (forall id <- s.remote.notes :: id in more.notes && more.notes[id] == s.remote.notes[id])
      && (forall id <- s.remote.drafts :: id in more.drafts && more.drafts[id] == s.remote.drafts[id])
  }

  function After(s: Scene, e: Event, env: Env): Scene {
    match e
    case Step(op, landed, newId) =>
      var calls := Made(s.world, op, env);
      var remote := if calls != [] && landed then Landed(s.remote, calls[0], newId, env.bot) else s.remote;
      Scene(Next(s.world, op, env), remote)
    case Arrive(more) => s.(remote := more)
  }

  function Play(s: Scene, events: seq<Event>, env: Env): Scene
    decreases events
  {
    if events == [] then s else Play(After(s, events[0], env), events[1..], env)
  }

  ghost predicate Playable(s: Scene, events: seq<Event>, env: Env)
    decreases events
  {
    events == [] || (Possible(s, events[0], env) && Playable(After(s, events[0], env), events[1..], env))
  }

  // The note, or the draft, is there as it is now at every point of the run.
  ghost predicate NoteStays(s: Scene, events: seq<Event>, env: Env, n: Note)
    decreases events
  {
    && n.id in s.remote.notes && s.remote.notes[n.id] == n
    && (events == [] || NoteStays(After(s, events[0], env), events[1..], env, n))
  }

  ghost predicate DraftStays(s: Scene, events: seq<Event>, env: Env, n: Draft)
    decreases events
  {
    && n.id in s.remote.drafts && s.remote.drafts[n.id] == n
    && (events == [] || DraftStays(After(s, events[0], env), events[1..], env, n))
  }

  // ---- Other messages' calls leave a message alone ---------------------------------------------

  // The note carries the marks of this message alone.
  ghost predicate SoleNote(n: Note, key: Key, bot: Bot) {
    OwnNote(n, key, bot) && forall k: Key :: OwnNote(n, k, bot) ==> k == key
  }

  ghost predicate SoleDraft(n: Draft, key: Key, bot: Bot) {
    OwnDraft(n, key, bot) && forall k: Key :: OwnDraft(n, k, bot) ==> k == key
  }

  lemma OwnNotesAreShown(key: Key, view: View, bot: Bot, x: (Discussion, Note))
    requires x in OwnNotes(key, view, bot)
    ensures x in Pairs(view.discussions) && OwnNote(x.1, key, bot)
  {
    FilterMember((y: (Discussion, Note)) => OwnNote(y.1, key, bot), Pairs(view.discussions), x);
  }

  lemma OwnDraftsAreShown(key: Key, view: View, bot: Bot, n: Draft)
    ensures n in OwnDrafts(key, view, bot) <==> n in view.drafts && OwnDraft(n, key, bot)
  {
    FilterMember((d: Draft) => OwnDraft(d, key, bot), view.drafts, n);
  }

  lemma CallSparesNote(c: Call, view: View, remote: Remote, env: Env, newId: Id, key: Key, n: Note)
    requires AddressesOwn(c, view, env) && Shown(view, remote) && newId !in remote.notes
    requires n.id in remote.notes && remote.notes[n.id] == n && SoleNote(n, key, env.bot) && c.key != key
    ensures var later := Landed(remote, c, newId, env.bot); n.id in later.notes && later.notes[n.id] == n
  {
    if c.kind == DeleteNote(Some(n.id)) || (c.kind.EditNote? && c.kind.note == Some(n.id)) {
      var x :| x in OwnNotes(c.key, view, env.bot) && x.1.id == n.id;
      OwnNotesAreShown(c.key, view, env.bot, x);
      assert false;
    }
  }

  lemma CallSparesDraft(c: Call, view: View, remote: Remote, env: Env, newId: Id, key: Key, n: Draft)
    requires AddressesOwn(c, view, env) && Shown(view, remote)
    requires n.id in remote.drafts && remote.drafts[n.id] == n && SoleDraft(n, key, env.bot) && c.key != key
    ensures var later := Landed(remote, c, newId, env.bot); n.id in later.drafts && later.drafts[n.id] == n
  {
    if (c.kind.DeleteDraft? || c.kind.EditDraft? || c.kind.PublishDraft?) && c.kind.draft == Some(n.id) {
      var x :| x in OwnDrafts(c.key, view, env.bot) && x.id == n.id;
      OwnDraftsAreShown(c.key, view, env.bot, x);
      assert false;
    }
  }

  lemma MadeAddressesOwn(w: World, op: Op, env: Env)
    requires RemovalsStored(w)
    ensures forall c <- Made(w, op, env) :: AddressesOwn(c, op.view, env)
  {
    if op.Act? && op.key in Tracked(w.table, op) {
      TrackingKeepsRows(w.table, op, op.key);
      NextIsStepRow(w, op, env, op.key);
      CallsAddressOwnMessages(Tracked(w.table, op)[op.key], op, op.key, env);
    } else if op.Act? {
      MadeIsFor(w, op, env, op.key);
    }
  }

  lemma StepSparesNote(s: Scene, e: Event, env: Env, key: Key, n: Note)
    requires Possible(s, e, env) && RemovalsStored(s.world) && SoleNote(n, key, env.bot)
    requires n.id in s.remote.notes && s.remote.notes[n.id] == n
    requires e.Step? ==> forall c <- Made(s.world, e.op, env) :: c.key != key
    ensures var later := After(s, e, env).remote; n.id in later.notes && later.notes[n.id] == n
  {
    if e.Step? && Made(s.world, e.op, env) != [] {
      MadeAddressesOwn(s.world, e.op, env);
      CallSparesNote(Made(s.world, e.op, env)[0], e.op.view, s.remote, env, e.newId, key, n);
    }
  }

  lemma StepSparesDraft(s: Scene, e: Event, env: Env, key: Key, n: Draft)
    requires Possible(s, e, env) && RemovalsStored(s.world) && SoleDraft(n, key, env.bot)
    requires n.id in s.remote.drafts && s.remote.drafts[n.id] == n
    requires e.Step? ==> forall c <- Made(s.world, e.op, env) :: c.key != key
    ensures var later := After(s, e, env).remote; n.id in later.drafts && later.drafts[n.id] == n
  {
    if e.Step? && Made(s.world, e.op, env) != [] {
      MadeAddressesOwn(s.world, e.op, env);
      CallSparesDraft(Made(s.world, e.op, env)[0], e.op.view, s.remote, env, e.newId, key, n);
    }
  }

  // ---- After the removal settled nothing touches the message -----------------------------------

  ghost predicate Closed(s: Scene, key: Key) {
    RemovalsStored(s.world) && key in s.world.table && Settled(s.world.table[key])
  }

  lemma EventKeepsClosed(s: Scene, e: Event, env: Env, key: Key)
    requires Closed(s, key)
    ensures Closed(After(s, e, env), key)
    ensures e.Step? ==> forall c <- Made(s.world, e.op, env) :: c.key != key
  {
    if e.Step? {
      EventKeepsStored(s, e, env);
      TrackingKeepsRows(s.world.table, e.op, key);
      var _, _ := NextRow(s.world, e.op, env, key);
      MadeIsFor(s.world, e.op, env, key);
    }
  }

  lemma EventKeepsStored(s: Scene, e: Event, env: Env)
    requires RemovalsStored(s.world)
    ensures RemovalsStored(After(s, e, env).world)
  {
    if e.Step? {
      RemovalsStayStored(s.world, [e.op], env);
      assert Run(s.world, [e.op], env) == Run(Next(s.world, e.op, env), [], env);
    }
  }

  lemma {:induction false} ClosedKeepsNote(s: Scene, events: seq<Event>, env: Env, key: Key, n: Note)
    requires Closed(s, key) && Playable(s, events, env) && SoleNote(n, key, env.bot)
    requires n.id in s.remote.notes && s.remote.notes[n.id] == n
    ensures NoteStays(s, events, env, n)
    decreases events
  {
    if events != [] {
      EventKeepsClosed(s, events[0], env, key);
      StepSparesNote(s, events[0], env, key, n);
      ClosedKeepsNote(After(s, events[0], env), events[1..], env, key, n);
    }
  }

  lemma {:induction false} ClosedKeepsDraft(s: Scene, events: seq<Event>, env: Env, key: Key, n: Draft)
    requires Closed(s, key) && Playable(s, events, env) && SoleDraft(n, key, env.bot)
    requires n.id in s.remote.drafts && s.remote.drafts[n.id] == n
    ensures DraftStays(s, events, env, n)
    decreases events
  {
    if events != [] {
      EventKeepsClosed(s, events[0], env, key);
      StepSparesDraft(s, events[0], env, key, n);
      ClosedKeepsDraft(After(s, events[0], env), events[1..], env, key, n);
    }
  }

  lemma {:induction false} ClosedStaysClosed(s: Scene, events: seq<Event>, env: Env, key: Key)
    requires Closed(s, key)
    ensures Closed(Play(s, events, env), key)
    decreases events
  {
    if events != [] {
      EventKeepsClosed(s, events[0], env, key);
      ClosedStaysClosed(After(s, events[0], env), events[1..], env, key);
    }
  }

  // ---- The step that settles ---------------------------------------------------------------------

  lemma OwnNoteMatches(row: Row, key: Key, view: View, bot: Bot, x: (Discussion, Note))
    requires x in OwnNotes(key, view, bot) && (row.noteId.None? || row.noteId == Some(x.1.id))
    ensures Matches(row, key, view, bot) != []
  {
    FilterMember((y: (Discussion, Note)) => row.noteId == Some(y.1.id), OwnNotes(key, view, bot), x);
  }

  lemma MatchIsShown(row: Row, key: Key, view: View, bot: Bot)
    requires Matches(row, key, view, bot) != []
    ensures var x := Matches(row, key, view, bot)[0];
            x in Pairs(view.discussions) && (row.noteId.None? || row.noteId == Some(x.1.id))
  {
    var own, x := OwnNotes(key, view, bot), Matches(row, key, view, bot)[0];
    FilterMember((y: (Discussion, Note)) => row.noteId == Some(y.1.id), own, x);
    FilterMember((y: (Discussion, Note)) => !y.0.resolved, own, x);
    OwnNotesAreShown(key, view, bot, x);
  }

  // The reading showed at most one message to delete, and that one was deleted.
  predicate Deletes(matches: seq<(Discussion, Note)>, drafts: seq<Draft>, calls: seq<Call>, key: Key) {
    if matches != [] then
      |matches| == 1 && drafts == [] && |calls| == 1 && calls[0].fate.Done?
      && calls[0].key == key && calls[0].kind == DeleteNote(Some(matches[0].1.id))
    else if drafts != [] then
      |drafts| == 1 && |calls| == 1 && calls[0].fate.Done?
      && calls[0].key == key && calls[0].kind == DeleteDraft(Some(drafts[0].id))
    else calls == []
  }

  lemma RemoveSettles(row: Row, key: Key, fate: Fate, crash: Crash)
    requires row.status.Drafted? || row.status.Committed?
    ensures var e := RemoveEffect(row, key, fate, crash);
            Settled(e.row) ==>
              var kind := if row.status.Drafted? then DeleteDraft(row.draftId) else DeleteNote(row.noteId);
              e.calls == [Call(key, kind, fate)] && fate.Done?
  {
  }

  lemma PendingReading(row: Row, matches: seq<(Discussion, Note)>, drafts: seq<Draft>, moved: bool)
    requires Withdrawn(row) && !Settled(row)
    ensures var synced := Reconcile(row, matches, drafts, moved);
            && (Settled(synced) ==> matches == [] && drafts == [])
            && (!Settled(synced) ==>
                  synced.intent == Some(RemoveIntent) && (synced.status.Drafted? || synced.status.Committed?))
            && (synced.conflict.None? && matches != [] ==> |matches| == 1 && drafts == [] && synced.status.Committed?)
            && (synced.conflict.None? && matches != [] ==> synced.noteId == Some(matches[0].1.id))
            && (synced.conflict.None? && matches == [] && drafts != [] ==>
                  |drafts| == 1 && synced.status.Drafted? && synced.draftId == Some(drafts[0].id)
                    && synced.noteId.None?)
            && (matches == [] && drafts == [] && !moved ==> Settled(synced))
            && (moved ==> synced.conflict.Some?)
  {
  }

  lemma PendingAction(row: Row, key: Key, request: Request, view: View, env: Env, fate: Fate, crash: Crash)
    requires row.intent == Some(RemoveIntent) && (row.status.Drafted? || row.status.Committed?)
    ensures var e := ActOn(row, key, request, view, env, fate, crash);
            Settled(e.row) ==> row.conflict.None? && e == RemoveEffect(row, key, fate, crash)
  {
  }

  lemma SettledAction(row: Row, key: Key, request: Request, view: View, env: Env, fate: Fate, crash: Crash)
    requires Settled(row)
    ensures ActOn(row, key, request, view, env, fate, crash).calls == []
  {
  }

  lemma SettlingDeletes(row: Row, op: Op, key: Key, env: Env)
    requires Withdrawn(row) && !Settled(row) && Settled(StepRow(row, op, key, env).row)
    ensures Deletes(Matches(row, key, op.view, env.bot), OwnDrafts(key, op.view, env.bot),
        StepRow(row, op, key, env).calls, key)
  {
    var matches, drafts := Matches(row, key, op.view, env.bot), OwnDrafts(key, op.view, env.bot);
    var synced := SyncRow(row, key, op.view, env.bot);
    PendingReading(row, matches, drafts, Moved(row, matches, drafts, op.view));
    if op.Act? && op.key == key {
      if Settled(synced) {
        SettledAction(synced, key, op.request, op.view, env, op.fate, op.crash);
      } else {
        PendingAction(synced, key, op.request, op.view, env, op.fate, op.crash);
        RemoveSettles(synced, key, op.fate, op.crash);
      }
    }
  }

  // The note the removal is about: the stored one, else the one the reading pins.
  function Pin(row: Row, synced: Row): Option<Id> { if row.noteId.Some? then row.noteId else synced.noteId }

  ghost predicate Mine(n: Note, pin: Option<Id>, key: Key, bot: Bot) {
    OwnNote(n, key, bot) && (pin.None? || pin == Some(n.id))
  }

  ghost predicate NoteShown(n: Note, view: View) { exists x <- Pairs(view.discussions) :: x.1 == n }

  function PinOf(s: Scene, op: Op, key: Key, env: Env): Option<Id>
    requires key in s.world.table
  {
    Pin(s.world.table[key], SyncRow(s.world.table[key], key, op.view, env.bot))
  }

  // The row is pending before the event and settled after it.
  ghost predicate Settles(s: Scene, e: Event, env: Env, key: Key) {
    && e.Step? && Possible(s, e, env) && RemovalsStored(s.world)
    && key in s.world.table && Withdrawn(s.world.table[key]) && !Settled(s.world.table[key])
    && Closed(After(s, e, env), key)
  }

  // A reading that settles the removal and matches a note is about that note.
  lemma PinIsMatched(row: Row, key: Key, op: Op, env: Env)
    requires Withdrawn(row) && !Settled(row) && Settled(StepRow(row, op, key, env).row)
    requires Matches(row, key, op.view, env.bot) != []
    ensures Pin(row, SyncRow(row, key, op.view, env.bot)) == Some(Matches(row, key, op.view, env.bot)[0].1.id)
  {
    var matches, drafts := Matches(row, key, op.view, env.bot), OwnDrafts(key, op.view, env.bot);
    SettlingDeletes(row, op, key, env);
    MatchIsShown(row, key, op.view, env.bot);
    PendingReading(row, matches, drafts, Moved(row, matches, drafts, op.view));
  }

  lemma SettlingRow(s: Scene, e: Event, env: Env, key: Key)
    requires Settles(s, e, env, key)
    ensures var row := s.world.table[key];
            && Deletes(Matches(row, key, e.op.view, env.bot), OwnDrafts(key, e.op.view, env.bot),
                       MadeFor(s.world, e.op, env, key), key)
            && (MadeFor(s.world, e.op, env, key) == Made(s.world, e.op, env)
                || forall c <- Made(s.world, e.op, env) :: c.key != key)
            && (Matches(row, key, e.op.view, env.bot) != [] ==>
                  PinOf(s, e.op, key, env) == Some(Matches(row, key, e.op.view, env.bot)[0].1.id))
  {
    var row := s.world.table[key];
    TrackingKeepsRows(s.world.table, e.op, key);
    NextIsStepRow(s.world, e.op, env, key);
    MadeIsFor(s.world, e.op, env, key);
    SettlingDeletes(row, e.op, key, env);
    if Matches(row, key, e.op.view, env.bot) != [] {
      PinIsMatched(row, key, e.op, env);
    }
  }

  lemma AnsweredCallLands(s: Scene, e: Event, env: Env, c: Call)
    requires e.Step? && Possible(s, e, env) && Made(s.world, e.op, env) == [c] && c.fate.Done?
    ensures After(s, e, env).remote == Landed(s.remote, c, e.newId, env.bot)
  {
    assert c in Made(s.world, e.op, env);
  }

  lemma ShownNoteMatches(row: Row, n: Note, key: Key, view: View, bot: Bot)
    requires NoteShown(n, view) && OwnNote(n, key, bot) && (row.noteId.None? || row.noteId == Some(n.id))
    ensures Matches(row, key, view, bot) != []
  {
    var x :| x in Pairs(view.discussions) && x.1 == n;
    FilterMember((y: (Discussion, Note)) => OwnNote(y.1, key, bot), Pairs(view.discussions), x);
    OwnNoteMatches(row, key, view, bot, x);
  }

  // The row pins no other note than the one the step pins.
  lemma PinAgrees(s: Scene, op: Op, key: Key, env: Env, n: Note)
    requires key in s.world.table && Mine(n, PinOf(s, op, key, env), key, env.bot)
    ensures s.world.table[key].noteId.None? || s.world.table[key].noteId == Some(n.id)
  {
  }

  // The deleted note is the one the row pins, and it was shown.
  lemma DeletedNoteWasShown(s: Scene, e: Event, env: Env, key: Key, n: Note)
    requires Settles(s, e, env, key) && n.id in s.remote.notes && s.remote.notes[n.id] == n
    requires Mine(n, PinOf(s, e.op, key, env), key, env.bot)
    requires Matches(s.world.table[key], key, e.op.view, env.bot) != []
    ensures NoteShown(n, e.op.view) && n.id !in After(s, e, env).remote.notes
  {
    var x := Matches(s.world.table[key], key, e.op.view, env.bot)[0];
    SettlingRow(s, e, env, key);
    MatchIsShown(s.world.table[key], key, e.op.view, env.bot);
    assert x.1.id == n.id && s.remote.notes[x.1.id] == x.1;
    DeletionLands(s, e, env, n.id);
  }

  lemma DeletionLands(s: Scene, e: Event, env: Env, id: Id)
    requires e.Step? && Possible(s, e, env) && |Made(s.world, e.op, env)| == 1
    requires Made(s.world, e.op, env)[0].fate.Done? && Made(s.world, e.op, env)[0].kind == DeleteNote(Some(id))
    ensures id !in After(s, e, env).remote.notes
  {
    AnsweredCallLands(s, e, env, Made(s.world, e.op, env)[0]);
  }

  lemma DraftCallSparesNotes(s: Scene, e: Event, env: Env, key: Key)
    requires Settles(s, e, env, key)
    requires Matches(s.world.table[key], key, e.op.view, env.bot) == [] && OwnDrafts(key, e.op.view, env.bot) != []
    ensures After(s, e, env).remote.notes == s.remote.notes
  {
    SettlingRow(s, e, env, key);
    AnsweredCallLands(s, e, env, Made(s.world, e.op, env)[0]);
  }

  lemma QuietStepSpares(s: Scene, e: Event, env: Env, key: Key)
    requires Settles(s, e, env, key)
    requires Matches(s.world.table[key], key, e.op.view, env.bot) == [] && OwnDrafts(key, e.op.view, env.bot) == []
    ensures forall c <- Made(s.world, e.op, env) :: c.key != key
  {
    SettlingRow(s, e, env, key);
  }

  // A note of the removal stays exactly when the settling reading hid it.
  lemma NoteStaysExactly(s: Scene, e: Event, env: Env, key: Key, id: Id)
    requires Settles(s, e, env, key) && id in s.remote.notes && s.remote.notes[id].id == id
    requires Mine(s.remote.notes[id], PinOf(s, e.op, key, env), key, env.bot)
    requires SoleNote(s.remote.notes[id], key, env.bot)
    ensures var later := After(s, e, env).remote;
            (id in later.notes && later.notes[id] == s.remote.notes[id]) <==> !NoteShown(s.remote.notes[id], e.op.view)
  {
    var row, n := s.world.table[key], s.remote.notes[id];
    if Matches(row, key, e.op.view, env.bot) != [] {
      DeletedNoteWasShown(s, e, env, key, n);
    } else {
      PinAgrees(s, e.op, key, env, n);
      if NoteShown(n, e.op.view) {
        ShownNoteMatches(row, n, key, e.op.view, env.bot);
      }
      if OwnDrafts(key, e.op.view, env.bot) != [] {
        DraftCallSparesNotes(s, e, env, key);
      } else {
        QuietStepSpares(s, e, env, key);
        StepSparesNote(s, e, env, key, n);
      }
    }
  }

  // A draft is the one own draft shown exactly when it is shown.
  lemma OnlyDraftShown(remote: Remote, view: View, key: Key, bot: Bot, n: Draft, only: Draft)
    requires Shown(view, remote) && OwnDraft(n, key, bot) && n.id in remote.drafts && remote.drafts[n.id] == n
    requires OwnDrafts(key, view, bot) == [only]
    ensures n in view.drafts <==> n.id == only.id
  {
    OwnDraftsAreShown(key, view, bot, n);
    OwnDraftsAreShown(key, view, bot, only);
    assert only in [only];
    if n in view.drafts {
      assert n in [only];
    }
  }

  // Deleting the one own draft shown takes a draft away exactly when it is that one.
  lemma ShownDraftGoes(remote: Remote, view: View, key: Key, bot: Bot, n: Draft, c: Call, newId: Id)
    requires Shown(view, remote) && OwnDraft(n, key, bot) && n.id in remote.drafts && remote.drafts[n.id] == n
    requires |OwnDrafts(key, view, bot)| == 1 && c.kind == DeleteDraft(Some(OwnDrafts(key, view, bot)[0].id))
    ensures var later := Landed(remote, c, newId, bot);
            (n.id in later.drafts && later.drafts[n.id] == n) <==> n !in view.drafts
  {
    var only := OwnDrafts(key, view, bot)[0];
    OnlyDraftShown(remote, view, key, bot, n, only);
    OthersStay(remote, only.id, n.id, c, newId, bot);
  }

  lemma OthersStay(remote: Remote, gone: Id, id: Id, c: Call, newId: Id, bot: Bot)
    requires id in remote.drafts && c.kind == DeleteDraft(Some(gone))
    ensures var later := Landed(remote, c, newId, bot);
            if id == gone then id !in later.drafts else id in later.drafts && later.drafts[id] == remote.drafts[id]
  {
  }

  lemma NoteCallSparesDrafts(s: Scene, e: Event, env: Env, key: Key)
    requires Settles(s, e, env, key) && Matches(s.world.table[key], key, e.op.view, env.bot) != []
    ensures After(s, e, env).remote.drafts == s.remote.drafts && OwnDrafts(key, e.op.view, env.bot) == []
  {
    SettlingRow(s, e, env, key);
    AnsweredCallLands(s, e, env, Made(s.world, e.op, env)[0]);
  }

  lemma DraftStaysExactly(s: Scene, e: Event, env: Env, key: Key, id: Id)
    requires Settles(s, e, env, key) && id in s.remote.drafts && s.remote.drafts[id].id == id
    requires SoleDraft(s.remote.drafts[id], key, env.bot)
    ensures var later := After(s, e, env).remote;
            (id in later.drafts && later.drafts[id] == s.remote.drafts[id])
              <==> s.remote.drafts[id] !in e.op.view.drafts
  {
    var n := s.remote.drafts[id];
    OwnDraftsAreShown(key, e.op.view, env.bot, n);
    if Matches(s.world.table[key], key, e.op.view, env.bot) != [] {
      NoteCallSparesDrafts(s, e, env, key);
    } else if OwnDrafts(key, e.op.view, env.bot) != [] {
      SettlingRow(s, e, env, key);
      AnsweredCallLands(s, e, env, Made(s.world, e.op, env)[0]);
      ShownDraftGoes(s.remote, e.op.view, key, env.bot, n, Made(s.world, e.op, env)[0], e.newId);
    } else {
      QuietStepSpares(s, e, env, key);
      StepSparesDraft(s, e, env, key, n);
    }
  }

  // ---- What a settled removal leaves behind ------------------------------------------------------

  ghost predicate Stored(remote: Remote, key: Key, bot: Bot) {
    && (forall id <- remote.notes ::
      remote.notes[id].id == id && (OwnNote(remote.notes[id], key, bot) ==> SoleNote(remote.notes[id], key, bot)))
    && (forall id <- remote.drafts ::
      remote.drafts[id].id == id && (OwnDraft(remote.drafts[id], key, bot) ==> SoleDraft(remote.drafts[id], key, bot)))
  }

  // The forge held a message of the removal that the reading did not show.
  ghost predicate Hides(s: Scene, op: Op, env: Env, key: Key)
    requires key in s.world.table
  {
    || (exists id <- s.remote.notes :: Mine(s.remote.notes[id], PinOf(s, op, key, env), key, env.bot)
                                       && !NoteShown(s.remote.notes[id], op.view))
    || (exists id <- s.remote.drafts ::
      OwnDraft(s.remote.drafts[id], key, env.bot) && s.remote.drafts[id] !in op.view.drafts)
  }

  // Some message of the removal is there untouched throughout.
  ghost predicate LeftBehind(s: Scene, e: Event, events: seq<Event>, env: Env, key: Key)
    requires key in s.world.table && e.Step?
  {
    || (exists id <- s.remote.notes :: Mine(s.remote.notes[id], PinOf(s, e.op, key, env), key, env.bot)
                                       && NoteStays(After(s, e, env), events, env, s.remote.notes[id]))
    || (exists id <- s.remote.drafts :: OwnDraft(s.remote.drafts[id], key, env.bot)
                                        && DraftStays(After(s, e, env), events, env, s.remote.drafts[id]))
  }

  lemma HiddenNoteStays(s: Scene, e: Event, events: seq<Event>, env: Env, key: Key, id: Id)
    requires Settles(s, e, env, key) && Stored(s.remote, key, env.bot) && Playable(After(s, e, env), events, env)
    requires id in s.remote.notes && Mine(s.remote.notes[id], PinOf(s, e.op, key, env), key, env.bot)
    ensures NoteStays(After(s, e, env), events, env, s.remote.notes[id]) <==> !NoteShown(s.remote.notes[id], e.op.view)
  {
    NoteStaysExactly(s, e, env, key, id);
    if !NoteShown(s.remote.notes[id], e.op.view) {
      ClosedKeepsNote(After(s, e, env), events, env, key, s.remote.notes[id]);
    }
  }

  lemma HiddenDraftStays(s: Scene, e: Event, events: seq<Event>, env: Env, key: Key, id: Id)
    requires Settles(s, e, env, key) && Stored(s.remote, key, env.bot) && Playable(After(s, e, env), events, env)
    requires id in s.remote.drafts && OwnDraft(s.remote.drafts[id], key, env.bot)
    ensures DraftStays(After(s, e, env), events, env, s.remote.drafts[id]) <==> s.remote.drafts[id] !in e.op.view.drafts
  {
    DraftStaysExactly(s, e, env, key, id);
    if s.remote.drafts[id] !in e.op.view.drafts {
      ClosedKeepsDraft(After(s, e, env), events, env, key, s.remote.drafts[id]);
    }
  }

  /** Over every run in which the owner's removal of a message settles, a message of it is left
      in the forge for good exactly when the reading it settled on hid one still there; and the
      row stays removed, so no later action can delete it. */
  lemma RemovalLeavesHiddenMessages(s: Scene, e: Event, events: seq<Event>, env: Env, key: Key)
    requires Settles(s, e, env, key) && Stored(s.remote, key, env.bot)
    requires Playable(After(s, e, env), events, env)
    ensures LeftBehind(s, e, events, env, key) <==> Hides(s, e.op, env, key)
    ensures Closed(Play(After(s, e, env), events, env), key)
  {
    var later, pin := After(s, e, env), PinOf(s, e.op, key, env);
    ClosedStaysClosed(later, events, env, key);
    forall id <- s.remote.notes | Mine(s.remote.notes[id], pin, key, env.bot)
      ensures NoteStays(later, events, env, s.remote.notes[id]) <==> !NoteShown(s.remote.notes[id], e.op.view)
    {
      HiddenNoteStays(s, e, events, env, key, id);
    }
    forall id <- s.remote.drafts | OwnDraft(s.remote.drafts[id], key, env.bot)
      ensures DraftStays(later, events, env, s.remote.drafts[id]) <==> s.remote.drafts[id] !in e.op.view.drafts
    {
      HiddenDraftStays(s, e, events, env, key, id);
    }
  }

  // ---- A removal that settles too early ----------------------------------------------------------

  function OwnNoteOf(id: Id, key: Key, bot: Bot): Note { Note(id, bot.id, OwnText(key, bot)) }

  function Showing(n: Note): View { View([], [Discussion(0, [n], false, true, None)]) }

  // The owner removes the message, the deletion is not answered, and the next reading hides the note.
  function Removing(n: Note, key: Key): Event {
    Step(Act(NOTHING, Showing(n), Never, key, Request(Remove, None), Unanswered), false, n.id + 1)
  }

  function Blind(n: Note): Event { Step(Sync(NOTHING, View([], []), Never), false, n.id + 1) }

  lemma ShowingOne(n: Note, key: Key, bot: Bot)
    requires OwnNote(n, key, bot)
    ensures Pairs(Showing(n).discussions) == OwnNotes(key, Showing(n), bot) == [(Showing(n).discussions[0], n)]
    ensures OwnDrafts(key, Showing(n), bot) == []
  {
    var d := Showing(n).discussions[0];
    assert Pairs(Showing(n).discussions[1..]) == [] && NotesOf(d, d.notes) == [(d, n)];
    FilterOne((x: (Discussion, Note)) => OwnNote(x.1, key, bot), (d, n));
  }

  lemma RemovingReads(row: Row, n: Note, key: Key, bot: Bot)
    requires OwnNote(n, key, bot) && row.status.Committed? && row.noteId == Some(n.id) && !row.removedByOwner
    ensures SyncRow(row, key, Showing(n), bot) == Located(row.(conflict := None), Showing(n).discussions[0], n)
  {
    var view := Showing(n);
    ShowingOne(n, key, bot);
    var own := OwnNotes(key, view, bot);
    FilterOne((x: (Discussion, Note)) => row.noteId == Some(x.1.id), own[0]);
    assert Matches(row, key, view, bot) == own;
  }

  lemma RemovingActs(row: Row, n: Note, key: Key, view: View, env: Env)
    requires row.status.Committed? && row.noteId == Some(n.id) && row.conflict.None?
    ensures var e := ActOn(row, key, Request(Remove, None), view, env, Unanswered, Never);
            && e.calls == [Call(key, DeleteNote(Some(n.id)), Unanswered)]
            && Withdrawn(e.row) && e.row.intent == Some(RemoveIntent) && e.row.noteId == Some(n.id)
  {
  }

  lemma RemovingPends(row: Row, n: Note, key: Key, env: Env)
    requires OwnNote(n, key, env.bot) && row.status.Committed? && row.noteId == Some(n.id)
    requires row.intent.None? && !row.removedByOwner
    ensures var e := StepRow(row, Removing(n, key).op, key, env);
            && e.calls == [Call(key, DeleteNote(Some(n.id)), Unanswered)]
            && Withdrawn(e.row) && e.row.intent == Some(RemoveIntent) && e.row.noteId == Some(n.id)
  {
    RemovingReads(row, n, key, env.bot);
    RemovingActs(SyncRow(row, key, Showing(n), env.bot), n, key, Showing(n), env);
  }

  lemma BlindSettles(row: Row, n: Note, key: Key, env: Env)
    requires row.intent == Some(RemoveIntent) && row.removedByOwner
    ensures var e := StepRow(row, Blind(n).op, key, env); e.calls == [] && Settled(e.row)
  {
    var view := View([], []);
    assert OwnNotes(key, view, env.bot) == [] && OwnDrafts(key, view, env.bot) == [];
    assert Matches(row, key, view, env.bot) == [];
  }

  // The note is there, its row is stored.
  ghost predicate Holds(s: Scene, n: Note, key: Key) {
    s.remote == Remote(map[n.id := n], map[]) && key in s.world.table && s.world.table.Keys == {key}
  }

  lemma RemovingLeaves(s: Scene, n: Note, env: Env, key: Key)
    requires Holds(s, n, key) && OwnNote(n, key, env.bot)
    requires var row := s.world.table[key];
             row.status.Committed? && row.noteId == Some(n.id) && row.intent.None? && !row.removedByOwner
    ensures Possible(s, Removing(n, key), env) && Holds(After(s, Removing(n, key), env), n, key)
    ensures var row := After(s, Removing(n, key), env).world.table[key];
            Withdrawn(row) && row.intent == Some(RemoveIntent) && row.noteId == Some(n.id)
  {
    var first := Removing(n, key);
    ShowingOne(n, key, env.bot);
    NothingTracked(s.world.table, first.op);
    NextIsStepRow(s.world, first.op, env, key);
    RemovingPends(s.world.table[key], n, key, env);
  }

  lemma BlindCloses(s: Scene, n: Note, env: Env, key: Key)
    requires Holds(s, n, key) && Withdrawn(s.world.table[key]) && s.world.table[key].intent == Some(RemoveIntent)
    ensures Possible(s, Blind(n), env) && After(s, Blind(n), env).remote == s.remote
    ensures Closed(After(s, Blind(n), env), key)
  {
    NothingTracked(s.world.table, Blind(n).op);
    NextIsStepRow(s.world, Blind(n).op, env, key);
    BlindSettles(s.world.table[key], n, key, env);
    EventKeepsStored(s, Blind(n), env);
  }

  lemma PlayTwo(s: Scene, a: Event, b: Event, env: Env)
    ensures Play(s, [a, b], env) == After(After(s, a, env), b, env)
    ensures Playable(s, [a, b], env) <==> Possible(s, a, env) && Possible(After(s, a, env), b, env)
  {
    assert [a, b][1..] == [b] && [b][1..] == [];
    var next := After(s, a, env);
    assert Play(next, [b], env) == Play(After(next, b, env), [], env);
    assert Playable(next, [b], env) <==> Possible(next, b, env) && Playable(After(next, b, env), [], env);
  }

  /** The expectation fails: whatever the message, its deletion is lost, one reading hides it,
      and the removal settles with the note still there. */
  lemma RemovalSettlesTooEarly(s: Scene, n: Note, env: Env, key: Key)
    requires Holds(s, n, key) && OwnNote(n, key, env.bot)
    requires var row := s.world.table[key];
             row.status.Committed? && row.noteId == Some(n.id) && row.intent.None? && !row.removedByOwner
    ensures var events := [Removing(n, key), Blind(n)];
            && Playable(s, events, env)
            && Play(s, events, env).remote == s.remote
            && Closed(Play(s, events, env), key)
  {
    RemovingLeaves(s, n, env, key);
    BlindCloses(After(s, Removing(n, key), env), n, env, key);
    PlayTwo(s, Removing(n, key), Blind(n), env);
  }

  lemma SomeNoteIsSole(id: Id, key: Key, bot: Bot)
    ensures SoleNote(OwnNoteOf(id, key, bot), key, bot)
  {
    OwnTextIsOwn(key, bot);
    forall other: Key | OwnNote(OwnNoteOf(id, key, bot), other, bot) ensures other == key {
      OwnTextIsSole(key, other, bot);
    }
  }

  // A committed message of this key and nothing else.
  function Only(id: Id, key: Key, bot: Bot): Scene {
    var n := OwnNoteOf(id, key, bot);
    var row := Entry(n.body, Committed, true, None).(noteId := Some(id), discussionId := Some(0), thread := Open);
    Scene(World(map[key := row], []), Remote(map[id := n], map[]))
  }

  lemma TooEarlyPending(id: Id, key: Key, env: Env)
    ensures var n, s := OwnNoteOf(id, key, env.bot), Only(id, key, env.bot);
            var pending := After(s, Removing(n, key), env);
            && Playable(s, [Removing(n, key), Blind(n)], env)
            && Settles(pending, Blind(n), env, key) && Stored(pending.remote, key, env.bot)
            && Hides(pending, Blind(n).op, env, key)
  {
    var n, s := OwnNoteOf(id, key, env.bot), Only(id, key, env.bot);
    var pending := After(s, Removing(n, key), env);
    SomeNoteIsSole(id, key, env.bot);
    RemovingLeaves(s, n, env, key);
    BlindCloses(pending, n, env, key);
    PlayTwo(s, Removing(n, key), Blind(n), env);
    EventKeepsStored(s, Removing(n, key), env);
    BlindHides(pending, n, env, key);
  }

  /** Such a run exists for every key and account, and its settling reading is one that hides a
      message still there, so the message stays whatever happens after. */
  lemma TooEarlyRunHides(id: Id, key: Key, env: Env, events: seq<Event>)
    requires var n := OwnNoteOf(id, key, env.bot);
             Playable(Play(Only(id, key, env.bot), [Removing(n, key), Blind(n)], env), events, env)
    ensures var n, s := OwnNoteOf(id, key, env.bot), Only(id, key, env.bot);
            var pending := After(s, Removing(n, key), env);
            && Playable(s, [Removing(n, key), Blind(n)], env)
            && Settles(pending, Blind(n), env, key) && Stored(pending.remote, key, env.bot)
            && Hides(pending, Blind(n).op, env, key) && LeftBehind(pending, Blind(n), events, env, key)
  {
    var n, s := OwnNoteOf(id, key, env.bot), Only(id, key, env.bot);
    var pending := After(s, Removing(n, key), env);
    TooEarlyPending(id, key, env);
    PlayTwo(s, Removing(n, key), Blind(n), env);
    RemovalLeavesHiddenMessages(pending, Blind(n), events, env, key);
  }

  lemma BlindHides(s: Scene, n: Note, env: Env, key: Key)
    requires Holds(s, n, key) && SoleNote(n, key, env.bot)
    requires var row := s.world.table[key];
             row.noteId == Some(n.id) && row.removedByOwner && row.intent == Some(RemoveIntent)
    ensures Stored(s.remote, key, env.bot) && Hides(s, Blind(n).op, env, key)
  {
    assert n.id in s.remote.notes && !NoteShown(n, Blind(n).op.view);
    assert Mine(n, PinOf(s, Blind(n).op, key, env), key, env.bot);
  }
}
