/** Reconciling the same reading again. */
module CommentReadings {
  import opened Sequences
  import opened Comments
  import opened CommentMarks

  type Found = (Discussion, Note)

  // Note ids are unique in a forge.
  predicate UniqueIds(own: seq<Found>) {
    forall i, j | 0 <= i < j < |own| :: own[i].1.id != own[j].1.id
  }

  function WithId(own: seq<Found>, id: Option<Id>): seq<Found> {
    if own == [] then [] else if id == Some(own[0].1.id) then [own[0]] + WithId(own[1..], id) else WithId(own[1..], id)
  }

  lemma {:induction false} FilterIsWithId(row: Row, own: seq<Found>)
    ensures Filter((x: Found) => row.noteId == Some(x.1.id), own) == WithId(own, row.noteId)
  {
    if own != [] {
      FilterIsWithId(row, own[1..]);
    }
  }

  lemma {:induction false} OneWithId(own: seq<Found>, k: nat)
    requires UniqueIds(own) && k < |own|
    ensures WithId(own, Some(own[k].1.id)) == [own[k]]
  {
    if k > 0 {
      OneWithId(own[1..], k - 1);
    } else {
      NoneWithId(own[1..], own[0].1.id);
    }
  }

  lemma {:induction false} NoneWithId(own: seq<Found>, id: Id)
    ensures (forall i | 0 <= i < |own| :: own[i].1.id != id) ==> WithId(own, Some(id)) == []
  {
    if own != [] {
      NoneWithId(own[1..], id);
      assert forall i | 0 <= i < |own[1..]| :: own[1..][i] == own[i + 1];
    }
  }

  // A matched note is one of the reading's own notes.
  lemma MatchIsOwn(row: Row, key: Key, view: View, bot: Bot) returns (k: nat)
    requires Matches(row, key, view, bot) != []
    ensures k < |OwnNotes(key, view, bot)| && Matches(row, key, view, bot)[0] == OwnNotes(key, view, bot)[k]
  {
    var own, x := OwnNotes(key, view, bot), Matches(row, key, view, bot)[0];
    FilterMember((x: Found) => row.noteId == Some(x.1.id), own, x);
    FilterMember((x: Found) => !x.0.resolved, own, x);
    assert x in own;
    k :| 0 <= k < |own| && own[k] == x;
  }

  // A row whose stored note vanished adopts a draft although other notes carry its marker.
  predicate AdoptsDraftBesideNotes(row: Row, key: Key, view: View, bot: Bot) {
    var matches, drafts := Matches(row, key, view, bot), OwnDrafts(key, view, bot);
    !Settled(row)
    && !Moved(row, matches, drafts, view) && matches == [] && |drafts| == 1 && OwnNotes(key, view, bot) != []
  }

  lemma CommittedIsStable(row: Row, key: Key, view: View, bot: Bot)
    requires UniqueIds(OwnNotes(key, view, bot))
    requires !Settled(row)
    requires var matches, drafts := Matches(row, key, view, bot), OwnDrafts(key, view, bot);
             !Moved(row, matches, drafts, view) && |matches| == 1 && drafts == []
    ensures SyncRow(SyncRow(row, key, view, bot), key, view, bot) == SyncRow(row, key, view, bot)
  {
    var k := MatchIsOwn(row, key, view, bot);
    var own := OwnNotes(key, view, bot);
    OneWithId(own, k);
    var once := SyncRow(row, key, view, bot);
    assert once.noteId == Some(own[k].1.id) && once.status.Committed?;
    FilterIsWithId(once, own);
    assert Matches(once, key, view, bot) == [own[k]];
  }

  // Matches and lost identities depend on the stored receipts alone.
  lemma SameReceipts(a: Row, b: Row, key: Key, view: View, bot: Bot)
    requires a.noteId == b.noteId && a.draftId == b.draftId
    ensures Matches(a, key, view, bot) == Matches(b, key, view, bot)
    ensures forall matches, drafts :: Moved(a, matches, drafts, view) == Moved(b, matches, drafts, view)
  {
    FilterIsWithId(a, OwnNotes(key, view, bot));
    FilterIsWithId(b, OwnNotes(key, view, bot));
  }

  predicate KeepsReceipts(matches: seq<Found>, drafts: seq<Draft>, moved: bool) {
    moved || Ambiguous(matches, drafts) || (matches == [] && drafts == [])
  }

  lemma ReconciledTwice(row: Row, matches: seq<Found>, drafts: seq<Draft>, moved: bool)
    requires KeepsReceipts(matches, drafts, moved)
    ensures var once := Reconcile(row, matches, drafts, moved);
            && once.noteId == row.noteId && once.draftId == row.draftId
            && Reconcile(once, matches, drafts, moved) == once
  {
    if !moved && !Ambiguous(matches, drafts) {
      QuietTwice(row);
      assert matches == [] && drafts == [];
    }
  }

  // Where a reading shows nothing.
  lemma QuietTwice(row: Row)
    ensures var once := Reconcile(row, [], [], false);
            once.noteId == row.noteId && once.draftId == row.draftId && Reconcile(once, [], [], false) == once
  {
    var once := Reconcile(row, [], [], false);
    if !row.status.NotPublished? || row.intent == Some(RemoveIntent) {
      assert once == row.(conflict := None, status := Removed, thread := NotApplicable, intent := None);
    } else if row.intent == Some(PublishIntent) {
      assert once == row.(conflict := Some(OutcomeUnknown));
    } else {
      assert once == row.(conflict := None);
    }
  }

  // Rows that keep their receipts reconcile alike a second time.
  lemma KeptIsStable(row: Row, key: Key, view: View, bot: Bot)
    requires !Settled(row)
    requires var matches, drafts := Matches(row, key, view, bot), OwnDrafts(key, view, bot);
             KeepsReceipts(matches, drafts, Moved(row, matches, drafts, view))
    ensures SyncRow(SyncRow(row, key, view, bot), key, view, bot) == SyncRow(row, key, view, bot)
  {
    var matches, drafts := Matches(row, key, view, bot), OwnDrafts(key, view, bot);
    ReconciledTwice(row, matches, drafts, Moved(row, matches, drafts, view));
    SameReceipts(row, SyncRow(row, key, view, bot), key, view, bot);
  }

  lemma DraftedIsStable(row: Row, key: Key, view: View, bot: Bot)
    requires !Settled(row)
    requires var matches, drafts := Matches(row, key, view, bot), OwnDrafts(key, view, bot);
             !Moved(row, matches, drafts, view) && matches == [] && |drafts| == 1
    ensures SyncRow(SyncRow(row, key, view, bot), key, view, bot) == SyncRow(row, key, view, bot) <==>
            OwnNotes(key, view, bot) == []
  {
    var once := SyncRow(row, key, view, bot);
    var again := Matches(once, key, view, bot);
    assert once.noteId == None && once.conflict == None && once.status.Drafted?;
    assert again == [] <==> OwnNotes(key, view, bot) == [];
    if again != [] {
      assert !Moved(once, again, OwnDrafts(key, view, bot), view);
      assert SyncRow(once, key, view, bot).conflict == Some(SeveralMatches);
    }
  }

  /** Reconciling a row twice with one reading is the same as once, except that a row whose
      stored note vanished takes up a draft first and finds the other notes in its way after. */
  lemma SyncIsStableExactly(row: Row, key: Key, view: View, bot: Bot)
    requires UniqueIds(OwnNotes(key, view, bot))
    ensures SyncRow(SyncRow(row, key, view, bot), key, view, bot) == SyncRow(row, key, view, bot) <==>
            !AdoptsDraftBesideNotes(row, key, view, bot)
  {
    var matches, drafts := Matches(row, key, view, bot), OwnDrafts(key, view, bot);
    if Settled(row) {
      assert SyncRow(row, key, view, bot) == row;
    } else if KeepsReceipts(matches, drafts, Moved(row, matches, drafts, view)) {
      KeptIsStable(row, key, view, bot);
    } else if matches != [] {
      CommittedIsStable(row, key, view, bot);
    } else {
      DraftedIsStable(row, key, view, bot);
    }
  }

  // One own note in a thread of its own, and one own draft.
  function NoteAndDraft(note: Id, draft: Id, key: Key, bot: Bot): View {
    View([Draft(draft, bot.id, OwnText(key, bot), false, None)],
         [Discussion(0, [Note(note, bot.id, OwnText(key, bot))], false, true, None)])
  }

  lemma NoteAndDraftAreOwn(note: Id, draft: Id, key: Key, bot: Bot)
    ensures var view := NoteAndDraft(note, draft, key, bot);
            && Pairs(view.discussions) == OwnNotes(key, view, bot)
              == [(view.discussions[0], view.discussions[0].notes[0])]
            && OwnDrafts(key, view, bot) == view.drafts
  {
    var view := NoteAndDraft(note, draft, key, bot);
    var d, n := view.discussions[0], view.discussions[0].notes[0];
    OwnTextIsOwn(key, bot);
    assert Pairs(view.discussions[1..]) == [];
    assert NotesOf(d, d.notes) == [(d, n)];
    assert Pairs(view.discussions) == [(d, n)];
    FilterOne((x: Found) => OwnNote(x.1, key, bot), (d, n));
    FilterOne((x: Draft) => OwnDraft(x, key, bot), view.drafts[0]);
  }

  // Read once, such a row is drafted; the draft and the note then compete.
  lemma OtherNoteHidesFirst(row: Row, key: Key, bot: Bot)
    requires row.noteId == Some(5)
    ensures Matches(row, key, NoteAndDraft(7, 9, key, bot), bot) == []
  {
    var view := NoteAndDraft(7, 9, key, bot);
    NoteAndDraftAreOwn(7, 9, key, bot);
    FilterIsWithId(row, OwnNotes(key, view, bot));
    assert WithId(OwnNotes(key, view, bot)[1..], Some(5)) == [];
  }

  lemma NoteAndDraftCompete(row: Row, key: Key, bot: Bot)
    requires row.status.Drafted? && row.noteId.None?
    ensures SyncRow(row, key, NoteAndDraft(7, 9, key, bot), bot).conflict == Some(SeveralMatches)
  {
    NoteAndDraftAreOwn(7, 9, key, bot);
  }

  /** The expectation fails: a row stored with note 5, and a reading with note 7 and draft 9. */
  lemma ReadingTwiceDiffers(row: Row, key: Key, bot: Bot) returns (view: View)
    requires row.noteId == Some(5) && !Settled(row)
    ensures view == NoteAndDraft(7, 9, key, bot) && UniqueIds(OwnNotes(key, view, bot))
    ensures SyncRow(row, key, view, bot).status.Drafted? && SyncRow(row, key, view, bot).conflict.None?
    ensures SyncRow(SyncRow(row, key, view, bot), key, view, bot).conflict == Some(SeveralMatches)
  {
    view := NoteAndDraft(7, 9, key, bot);
    NoteAndDraftAreOwn(7, 9, key, bot);
    OtherNoteHidesFirst(row, key, bot);
    NoteAndDraftCompete(SyncRow(row, key, view, bot), key, bot);
  }
}
