/** What an owner's edit does to the identity of a message.

    An edit is refused when it brings a complete marker or footer. A reading, however,
    disowns a note on the mere opening of a recheck marker, and takes the first owner
    named. The two tests differ, and exactly there an accepted edit loses the message.
 */
module CommentEdits {
  import opened Sequences
  import opened Markers
  import opened Comments
  import opened CommentMarks
  import opened CommentProtocol

  // No footer of the body names another owner; footers are carried over ahead of the markers.
  predicate FootersAgree(body: string, owner: Option<Owner>) {
    match FirstOwnerIn(FootersOf(body))
    case None => true
    case Some(o) => owner.Some? && o == owner.value
  }

  /** An accepted edit keeps a note this review's own exactly when the replacement opens no
      recheck marker and the footers name no other owner. */
  lemma EditKeepsIdentityExactly(n: Note, replacement: string, key: Key, bot: Bot)
    requires OwnNote(n, key, bot) && Edited(n.body, replacement).Some?
    ensures OwnNote(n.(body := Edited(n.body, replacement).value), key, bot)
       <==> !Occurs(RECHECK, replacement) && FootersAgree(n.body, bot.owner)
  {
    MarkIsComplete(key, bot);
    EditKeepsMarks(n.body, replacement, Mark(key, bot));
    EditKeepsRecheck(n.body, replacement);
    EditKeepsOwner(n.body, replacement);
  }

  /** A draft is not tested for rechecks, so it stays own unless a footer names another owner. */
  lemma EditKeepsDraftExactly(n: Draft, replacement: string, key: Key, bot: Bot)
    requires OwnDraft(n, key, bot) && Edited(n.body, replacement).Some?
    ensures OwnDraft(n.(body := Edited(n.body, replacement).value), key, bot) <==> FootersAgree(n.body, bot.owner)
  {
    MarkIsComplete(key, bot);
    EditKeepsMarks(n.body, replacement, Mark(key, bot));
    EditKeepsOwner(n.body, replacement);
  }

  // ---- The edits that are accepted and lose the message ----------------------------------------

  lemma {:induction false} NothingFound(length: string -> nat, text: string)
    requires forall i | 0 <= i < |text| :: length(text[i..]) == 0
    ensures FindAll(length, text) == []
    decreases |text|
  {
    if text != "" {
      assert text[0..] == text;
      assert forall i | 0 <= i < |text[1..]| :: text[1..][i..] == text[i + 1..];
      NothingFound(length, text[1..]);
    }
  }

  lemma NoneAtStart(text: string)
    requires '>' !in text
    ensures MarkerLength(text) == 0 && FooterLength(text) == 0
  {
    assert "<sub>AI review"[4] == '>';
    assert |text| > 4 ==> text[4] in text;
  }

  // Without `>` nothing is complete.
  lemma NeverComplete(text: string)
    requires '>' !in text
    ensures MarkersOf(text) == [] && FootersOf(text) == []
  {
    forall i | 0 <= i < |text| ensures MarkerLength(text[i..]) == 0 && FooterLength(text[i..]) == 0 {
      assert forall c <- text[i..] :: c in text;
      NoneAtStart(text[i..]);
    }
    NothingFound(MarkerLength, text);
    NothingFound(FooterLength, text);
  }

  /** A replacement that opens a recheck marker and closes nothing is accepted, and turns any
      own note into one that no later reading recognizes. */
  lemma OpenedRecheckIsAccepted(n: Note, replacement: string, key: Key, bot: Bot)
    requires OwnNote(n, key, bot) && '>' !in replacement && Occurs(RECHECK, replacement)
    ensures Edited(n.body, replacement).Some?
    ensures !OwnNote(n.(body := Edited(n.body, replacement).value), key, bot)
  {
    NeverComplete(replacement);
    EditKeepsIdentityExactly(n, replacement, key, bot);
  }

  // For instance this replacement, on this note.
  const SEE := "see "

  lemma OccursLast(before: string, part: string)
    requires '>' !in before && '>' !in part
    ensures Occurs(part, before + part) && '>' !in before + part
  {
    assert At(part, before + part, |before|);
  }

  lemma RecheckIsOpen()
    ensures '>' !in SEE && '>' !in RECHECK
  {
  }

  /** The expectation fails: an owner's note, and the text `see <!-- ai-review:recheck=`. */
  lemma EditLosesMessage(id: Id, key: Key, bot: Bot) returns (n: Note, replacement: string)
    ensures replacement == SEE + RECHECK && n.id == id && OwnNote(n, key, bot)
    ensures Edited(n.body, replacement).Some?
    ensures !OwnNote(n.(body := Edited(n.body, replacement).value), key, bot)
  {
    n, replacement := Note(id, bot.id, OwnText(key, bot)), SEE + RECHECK;
    OwnTextIsOwn(key, bot);
    RecheckIsOpen();
    OccursLast(SEE, RECHECK);
    OpenedRecheckIsAccepted(n, replacement, key, bot);
  }

  // Every tag in the text opens a comment.
  predicate CommentTags(text: string) {
    forall i | 0 <= i < |text| :: text[i] == '<' ==> i + 1 < |text| && text[i + 1] == '!'
  }

  lemma {:induction false} FootersAfter(a: string, b: string)
    requires CommentTags(a)
    ensures FootersOf(a + b) == FootersOf(b)
  {
    if a == "" {
      assert a + b == b;
    } else {
      assert "<sub>AI review"[0] == '<' && "<sub>AI review"[1] == 's';
      assert a[0] == '<' ==> (a + b)[1] == '!';
      assert (a + b)[1..] == a[1..] + b;
      FootersAfter(a[1..], b);
    }
  }

  lemma {:induction false} PartAfter(a: string, b: string, part: string)
    requires CommentTags(a) && |part| > 1 && part[0] == '<' && part[1] != '!'
    ensures IndexOfPart(a + b, part) == |a| + IndexOfPart(b, part)
  {
    if a == "" {
      assert a + b == b;
    } else {
      assert a[0] == '<' ==> (a + b)[1] == '!';
      assert (a + b)[1..] == a[1..] + b;
      PartAfter(a[1..], b, part);
    }
  }

  lemma OwnerMarkComments(owner: Owner)
    ensures CommentTags(OwnerMark(owner))
  {
    forall i | 0 <= i < |OwnerMark(owner)| ensures OwnerMark(owner)[i] == '<' ==> i == 0 {
      if |OWNER| <= i < |OWNER| + |owner| {
        assert owner[i - |OWNER|] in owner;
      }
    }
  }

  const HEAD := "<sub>AI review\n"

  const TAIL := "\n</sub>"

  function FooterOf(text: string): string { HEAD + text + TAIL }

  lemma FooterIsFound(text: string)
    requires CommentTags(text)
    ensures FootersOf(FooterOf(text)) == [FooterOf(text)]
  {
    var footer, opening := FooterOf(text), "<sub>AI review";
    assert opening == HEAD[..14] == footer[..14];
    var inside := "\n" + text + "\n";
    assert footer[14..] == inside + "</sub>";
    PartAfter(inside, "</sub>", "</sub>");
    assert FooterLength(footer) == |footer|;
    assert footer[|footer|..] == "" && footer[..|footer|] == footer;
    assert FindAll(FooterLength, footer) == [footer[..|footer|]] + FindAll(FooterLength, footer[|footer|..]);
  }

  lemma NoOwnerInHead()
    ensures FirstOwner(HEAD) == None
  {
    OwnerOccurs(HEAD);
    if FirstOwner(HEAD).Some? {
      OpenedOtherwise(HEAD, OwnerMark(FirstOwner(HEAD).value));
    }
  }

  lemma FooterNames(owner: Owner)
    ensures FirstOwner(FooterOf(OwnerMark(owner))) == Some(owner)
  {
    var mark := OwnerMark(owner);
    OwnerMarkOpens(owner);
    NoOwnerInHead();
    Associative(HEAD, mark, TAIL);
    OwnerSplit(HEAD, mark + TAIL);
    OwnerSplit(mark, TAIL);
  }

  /** The expectation fails on footers too: where one names another owner, any accepted edit
      hands the message to that owner. */
  lemma FooterChangesOwner(text: string, owner: Owner, other: Owner)
    requires CommentTags(text) && FirstOwner(text) == Some(owner) && owner != other
    ensures var body := text + "\n" + FooterOf(OwnerMark(other));
            && OwnedBy(Some(owner), body) && !FootersAgree(body, Some(owner))
            && forall replacement | Edited(body, replacement).Some? ::
                 FirstOwner(Edited(body, replacement).value) == Some(other)
  {
    var footer := FooterOf(OwnerMark(other));
    OwnerMarkComments(other);
    FooterIsFound(OwnerMark(other));
    FooterNames(other);
    FootersAfter(text + "\n", footer);
    OwnerSplit(text + "\n", footer);
    OwnerSplit(text, "\n");
    assert FirstOwnerIn([footer][1..]) == None;
    var body := text + "\n" + footer;
    forall replacement | Edited(body, replacement).Some?
      ensures FirstOwner(Edited(body, replacement).value) == Some(other)
    {
      EditKeepsOwner(body, replacement);
    }
  }

  lemma TagsAppend(a: string, b: string)
    requires CommentTags(a) && CommentTags(b)
    ensures CommentTags(a + b)
  {
  }

  lemma MarkTags(opening: string, hash: Hex)
    requires OpensMark(opening) && opening[1] == '!'
    ensures CommentTags(opening + hash + CLOSING)
  {
    forall i | 0 < i < |opening + hash + CLOSING| ensures (opening + hash + CLOSING)[i] != '<' {
      MarkCharacters(opening, hash, i);
    }
  }

  lemma OwnTextTags(key: Key, bot: Bot)
    ensures CommentTags(OwnText(key, bot))
  {
    KeysOpenMarks(key);
    assert MarkOpening(key)[..15][1] == '!';
    MarkTags(MarkOpening(key), MarkValue(key, bot));
    match bot.owner
    case None =>
      assert OwnText(key, bot) == Mark(key, bot);
    case Some(owner) =>
      OwnerMarkComments(owner);
      TagsAppend(Mark(key, bot), OwnerMark(owner));
  }

  lemma NoRecheckInFooter(owner: Owner)
    ensures !Occurs(RECHECK, FooterOf(OwnerMark(owner)))
  {
    var mark := OwnerMark(owner);
    RecheckIsUnbroken();
    OwnerMarkOpens(owner);
    HeadAndTail();
    Associative(HEAD, mark, TAIL);
    OccursSplit(RECHECK, mark, TAIL);
    OccursSplit(RECHECK, HEAD, mark + TAIL);
  }

  lemma HeadAndTail()
    ensures OpensOnce(HEAD) && !Occurs(RECHECK, HEAD) && !Occurs(RECHECK, TAIL)
    ensures forall text: string :: Apart(HEAD, text) && Apart(text, TAIL)
  {
    assert HEAD[1] == 's' && RECHECK[1] == '!' && RECHECK[0] == '<';
    OpenedOtherwise(HEAD, RECHECK);
    forall i | 0 <= i <= |TAIL| ensures !At(RECHECK, TAIL, i) {
    }
  }

  // This review's own text, with a footer that names another owner.
  function Confused(key: Key, bot: Bot, other: Owner): string {
    OwnText(key, bot) + "\n" + FooterOf(OwnerMark(other))
  }

  /** The expectation fails on an own note whose footer names another owner: every accepted edit
      turns it into one that no later reading recognizes. */
  lemma FooterLosesMessage(id: Id, key: Key, bot: Bot, other: Owner) returns (n: Note)
    requires bot.owner.Some? && bot.owner.value != other
    ensures n == Note(id, bot.id, Confused(key, bot, other)) && OwnNote(n, key, bot)
    ensures forall replacement | Edited(n.body, replacement).Some? ::
              !OwnNote(n.(body := Edited(n.body, replacement).value), key, bot)
  {
    n := Note(id, bot.id, Confused(key, bot, other));
    OwnTextIsOwn(key, bot);
    OwnTextTags(key, bot);
    FooterChangesOwner(OwnText(key, bot), bot.owner.value, other);
    ConfusedIsOwn(key, bot, other);
  }

  lemma OnItsOwnLine(text: string, footer: string, mark: string, part: string)
    requires Occurs(mark, text)
    requires Unbroken(part) && |part| > 1 && !Occurs(part, text) && !Occurs(part, footer)
    ensures Occurs(mark, text + "\n" + footer) && !Occurs(part, text + "\n" + footer)
  {
    Associative(text, "\n", footer);
    OccursInside(mark, "", text, "\n" + footer);
    assert "" + text + ("\n" + footer) == text + "\n" + footer;
    assert forall i | 0 <= i <= |"\n"| :: !At(part, "\n", i);
    OccursSplit(part, "\n", footer);
    OccursSplit(part, text, "\n" + footer);
  }

  lemma ConfusedIsOwn(key: Key, bot: Bot, other: Owner)
    ensures Occurs(Mark(key, bot), Confused(key, bot, other)) && !Occurs(RECHECK, Confused(key, bot, other))
  {
    OwnTextIsOwn(key, bot);
    RecheckIsUnbroken();
    NoRecheckInFooter(other);
    OnItsOwnLine(OwnText(key, bot), FooterOf(OwnerMark(other)), Mark(key, bot), RECHECK);
  }

  // ---- What becomes of the row -------------------------------------------------------------------

  // The reading may hide the note, but where it shows it, it shows this body; and no own draft.
  ghost predicate ShowsAs(view: View, id: Id, body: string, key: Key, bot: Bot) {
    && (forall x <- Pairs(view.discussions) :: x.1.id == id ==> x.1.body == body)
    && OwnDrafts(key, view, bot) == []
  }

  // A row pinned to a note that its marks no longer identify.
  predicate Stranded(row: Row, id: Id) { row.noteId == Some(id) && (row.status.Committed? || row.status.Removed?) }

  /** Such a row stays pinned, a reading that shows the note is a conflict, and any other leaves
      the row removed. */
  lemma StrandedReading(row: Row, key: Key, view: View, bot: Bot, id: Id)
    requires Stranded(row, id) && OwnDrafts(key, view, bot) == []
    requires forall x <- OwnNotes(key, view, bot) :: x.1.id != id
    ensures var synced := SyncRow(row, key, view, bot);
            Stranded(synced, id) && (synced.conflict.Some? || synced.status.Removed?)
    ensures !Settled(row) && (exists x <- Pairs(view.discussions) :: x.1.id == id) ==>
              SyncRow(row, key, view, bot).conflict == Some(IdentityChanged)
  {
    var own := OwnNotes(key, view, bot);
    if Matches(row, key, view, bot) != [] {
      FilterMember((x: (Discussion, Note)) => row.noteId == Some(x.1.id), own, Matches(row, key, view, bot)[0]);
      assert false;
    }
  }

  lemma ReadingDisowns(view: View, id: Id, body: string, key: Key, bot: Bot)
    requires ShowsAs(view, id, body, key, bot) && forall author :: !OwnNote(Note(id, author, body), key, bot)
    ensures forall x <- OwnNotes(key, view, bot) :: x.1.id != id
  {
    forall x <- OwnNotes(key, view, bot) ensures x.1.id != id {
      FilterMember((y: (Discussion, Note)) => OwnNote(y.1, key, bot), Pairs(view.discussions), x);
      assert x.1 == Note(x.1.id, x.1.author, x.1.body);
    }
  }

  // Every reading shows the note, if at all, with this body.
  ghost predicate ShownThroughout(ops: seq<Op>, id: Id, body: string, key: Key, bot: Bot) {
    forall op <- ops :: ShowsAs(op.view, id, body, key, bot)
  }

  lemma {:induction false} StrandedRowsMakeNoCalls(w: World, ops: seq<Op>, env: Env, key: Key, id: Id, body: string)
    returns (later: seq<Call>)
    requires key in w.table && Stranded(w.table[key], id)
    requires ShownThroughout(ops, id, body, key, env.bot)
    requires forall author :: !OwnNote(Note(id, author, body), key, env.bot)
    ensures Run(w, ops, env).log == w.log + later && forall c <- later :: c.key != key
    ensures key in Run(w, ops, env).table && Stranded(Run(w, ops, env).table[key], id)
    decreases ops
  {
    if ops == [] {
      later := [];
      assert w.log + later == w.log;
    } else {
      var next := Next(w, ops[0], env);
      StrandedStep(w, ops[0], env, key, id, body);
      var rest := StrandedRowsMakeNoCalls(next, ops[1..], env, key, id, body);
      Associative(w.log, Made(w, ops[0], env), rest);
      later := Made(w, ops[0], env) + rest;
    }
  }

  lemma StrandedAction(row: Row, key: Key, request: Request, view: View, env: Env, fate: Fate, crash: Crash)
    requires row.conflict.Some? || row.status.Removed?
    ensures var e := ActOn(row, key, request, view, env, fate, crash); e.row == row && e.calls == []
  {
  }

  lemma StrandedRow(row: Row, op: Op, key: Key, env: Env, id: Id)
    requires Stranded(row, id) && OwnDrafts(key, op.view, env.bot) == []
    requires forall x <- OwnNotes(key, op.view, env.bot) :: x.1.id != id
    ensures Stranded(StepRow(row, op, key, env).row, id) && StepRow(row, op, key, env).calls == []
  {
    StrandedReading(row, key, op.view, env.bot, id);
    if op.Act? {
      StrandedAction(SyncRow(row, key, op.view, env.bot), key, op.request, op.view, env, op.fate, op.crash);
    }
  }

  lemma StrandedStep(w: World, op: Op, env: Env, key: Key, id: Id, body: string)
    requires key in w.table && Stranded(w.table[key], id)
    requires ShowsAs(op.view, id, body, key, env.bot)
    requires forall author :: !OwnNote(Note(id, author, body), key, env.bot)
    ensures key in Next(w, op, env).table && Stranded(Next(w, op, env).table[key], id)
    ensures Next(w, op, env).log == w.log + Made(w, op, env) && forall c <- Made(w, op, env) :: c.key != key
  {
    TrackingKeepsRows(w.table, op, key);
    NextMakes(w, op, env);
    MadeIsFor(w, op, env, key);
    NextIsStepRow(w, op, env, key);
    ReadingDisowns(op.view, id, body, key, env.bot);
    StrandedRow(w.table[key], op, key, env, id);
  }

  /** After an accepted edit that opens a recheck marker the owner has lost the message: while
      no draft of it turns up, no later action on the row reaches the forge. */
  lemma EditedAway(w: World, ops: seq<Op>, env: Env, key: Key, n: Note, replacement: string)
    returns (later: seq<Call>)
    requires OwnNote(n, key, env.bot) && '>' !in replacement && Occurs(RECHECK, replacement)
    requires key in w.table && w.table[key].status.Committed? && w.table[key].noteId == Some(n.id)
    requires Edited(n.body, replacement).Some? &&
             ShownThroughout(ops, n.id, Edited(n.body, replacement).value, key, env.bot)
    ensures Run(w, ops, env).log == w.log + later && forall c <- later :: c.key != key
    ensures key in Run(w, ops, env).table && Run(w, ops, env).table[key].noteId == Some(n.id)
  {
    var body := Edited(n.body, replacement).value;
    OpenedRecheckIsAccepted(n, replacement, key, env.bot);
    forall author ensures !OwnNote(Note(n.id, author, body), key, env.bot) {
      assert n.(body := body) == Note(n.id, env.bot.id, body);
    }
    later := StrandedRowsMakeNoCalls(w, ops, env, key, n.id, body);
  }
}
