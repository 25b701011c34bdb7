/** The publication protocol of a stored review's messages.

    A durable row per message carries a status and an intent. The forge may lose
    responses, hide notes for a while, or be edited by people, and the process may
    die at any await. Every listing the forge returns and the fate of every remote
    call is therefore an arbitrary input; the theorems hold for all of them.
 */
module Comments {
  import opened Sequences
  import opened Markers

  type Id = nat

  datatype Key = Summary | Fingerprint(hash: Hex)

  // The account comments are made with, the review's owner if it has one, and the head reviewed.
  datatype Bot = Bot(id: Id, owner: Option<Owner>, head: Hex)

  function MarkOpening(key: Key): string { if key.Summary? then SUMMARY else FINGERPRINT }

  function MarkValue(key: Key, bot: Bot): Hex { if key.Summary? then bot.head else key.hash }

  function Mark(key: Key, bot: Bot): string { MarkOpening(key) + MarkValue(key, bot) + CLOSING }

  datatype Note = Note(id: Id, author: Id, body: string)

  datatype Discussion =
    Discussion(id: Id, notes: seq<Note>, resolved: bool, resolvable: bool, file: Option<string>)

  datatype Draft = Draft(id: Id, author: Id, body: string, isReply: bool, file: Option<string>)

  // One reading of the forge: drafts are listed before discussions.
  datatype View = View(drafts: seq<Draft>, discussions: seq<Discussion>)

  datatype Status = NotPublished | Drafted | Committed | Removed

  datatype ThreadStatus = NotApplicable | Open | Resolved

  datatype Intent = PublishIntent | RemoveIntent

  datatype Reason = IdentityChanged | SeveralMatches | OutcomeUnknown

  // `message` is the owner's replacement text.
  datatype Action =
    | Resolve
    | Edit(message: string)
    | Remove
    | Publish
    | Unknown

  datatype Row = Row(
    body: string,
    status: Status,
    thread: ThreadStatus,
    intent: Option<Intent>,
    noteId: Option<Id>,
    discussionId: Option<Id>,
    draftId: Option<Id>,
    conflict: Option<Reason>,
    removedByOwner: bool,
    eligible: bool,
    positioned: bool,
    file: Option<string>,
    actions: seq<Action>)

  function Entry(body: string, status: Status, positioned: bool, file: Option<string>): Row {
    Row(body, status, NotApplicable, None, None, None, None, None, false, true, positioned, file, [])
  }

  // ---- What the stored report and findings ask to be tracked -----------------

  datatype Inline = Inline(key: Key, body: string, positioned: bool, file: Option<string>)

  datatype Report = Report(mode: Option<string>, inline: seq<Inline>, summary: string)

  function PreviousStatus(mode: Option<string>): Status {
    match mode
    case Some("draft") => Drafted
    case Some("applied") => Committed
    case _ => NotPublished
  }

  function InlineSeeds(items: seq<Inline>, status: Status): seq<(Key, Row)> {
    seq(|items|, i requires 0 <= i < |items| =>
      (items[i].key, Entry(items[i].body, status, items[i].positioned, items[i].file)))
  }

  function SummarySeed(report: Report): seq<(Key, Row)> {
    if report.summary == "" then []
    else [(Summary, Entry(report.summary, PreviousStatus(report.mode), false, None))]
  }

  // A finding the report dropped is tracked for reconciliation only: its row has no body.
  function FindingSeeds(findings: seq<(Key, Option<string>)>): seq<(Key, Row)> {
    seq(|findings|, i requires 0 <= i < |findings| =>
      (findings[i].0, Entry("", NotPublished, false, findings[i].1)))
  }

  function Seeds(report: Report, findings: seq<(Key, Option<string>)>): seq<(Key, Row)> {
    InlineSeeds(report.inline, PreviousStatus(report.mode)) + SummarySeed(report) + FindingSeeds(findings)
  }

  function Seeded(table: map<Key, Row>, seeds: seq<(Key, Row)>): map<Key, Row>
    decreases seeds
  {
    if seeds == [] then table
    else
      var (key, row) := seeds[0];
      Seeded(if key in table then table else table[key := row], seeds[1..])
  }

  lemma {:induction false} SeedingKeepsRows(table: map<Key, Row>, seeds: seq<(Key, Row)>, key: Key)
    requires key in table
    ensures key in Seeded(table, seeds) && Seeded(table, seeds)[key] == table[key]
    decreases seeds
  {
    if seeds != [] {
      var (k, row) := seeds[0];
      SeedingKeepsRows(if k in table then table else table[k := row], seeds[1..], key);
    }
  }

  // ---- Reconciling one row with one reading ------------------------------------

  function NotesOf(d: Discussion, notes: seq<Note>): seq<(Discussion, Note)> {
    seq(|notes|, i requires 0 <= i < |notes| => (d, notes[i]))
  }

  function Pairs(discussions: seq<Discussion>): seq<(Discussion, Note)> {
    if discussions == [] then []
    else NotesOf(discussions[0], discussions[0].notes) + Pairs(discussions[1..])
  }

  predicate OwnNote(n: Note, key: Key, bot: Bot) {
    n.author == bot.id && OwnedBy(bot.owner, n.body) && Occurs(Mark(key, bot), n.body) && !Occurs(RECHECK, n.body)
  }

  predicate OwnDraft(n: Draft, key: Key, bot: Bot) {
    OwnedBy(bot.owner, n.body) && Occurs(Mark(key, bot), n.body) && n.author in {0, bot.id} && !n.isReply
  }

  function OwnNotes(key: Key, view: View, bot: Bot): seq<(Discussion, Note)> {
    Filter((x: (Discussion, Note)) => OwnNote(x.1, key, bot), Pairs(view.discussions))
  }

  function OwnDrafts(key: Key, view: View, bot: Bot): seq<Draft> {
    Filter((n: Draft) => OwnDraft(n, key, bot), view.drafts)
  }

  // A stored note id pins the match; otherwise a single open thread wins.
  function Matches(row: Row, key: Key, view: View, bot: Bot): seq<(Discussion, Note)> {
    var own := OwnNotes(key, view, bot);
    if row.noteId.Some? then
      Filter((x: (Discussion, Note)) => row.noteId == Some(x.1.id), own)
    else
      var unresolved := Filter((x: (Discussion, Note)) => !x.0.resolved, own);
      if |own| > 1 && |unresolved| == 1 then unresolved else own
  }

  predicate Moved(row: Row, matches: seq<(Discussion, Note)>, drafts: seq<Draft>, view: View) {
    || (matches == [] && exists x <- Pairs(view.discussions) :: row.noteId == Some(x.1.id))
    || (drafts == [] && exists n <- view.drafts :: row.draftId == Some(n.id))
  }

  predicate Settled(row: Row) { row.removedByOwner && row.status.Removed? && row.intent.None? }

  predicate Ambiguous(matches: seq<(Discussion, Note)>, drafts: seq<Draft>) {
    |matches| > 1 || |drafts| > 1 || (matches != [] && drafts != [])
  }

  function ThreadOf(d: Discussion): ThreadStatus {
    if !d.resolvable then NotApplicable else if d.resolved then Resolved else Open
  }

  function Located(row: Row, d: Discussion, n: Note): Row {
    row.(intent := if row.intent == Some(PublishIntent) then None else row.intent,
         status := Committed, body := n.body, noteId := Some(n.id), discussionId := Some(d.id),
         draftId := None, thread := ThreadOf(d))
  }

  // The row after a reading that shows these own messages; `moved` when a stored one lost its identity.
  function Reconcile(row: Row, matches: seq<(Discussion, Note)>, drafts: seq<Draft>, moved: bool): Row {
    if moved then row.(conflict := Some(IdentityChanged))
    else if Ambiguous(matches, drafts) then row.(conflict := Some(SeveralMatches))
    else
      var calm := row.(conflict := None);
      if matches != [] then Located(calm, matches[0].0, matches[0].1)
      else if drafts != [] then
        calm.(status := Drafted, body := drafts[0].body, draftId := Some(drafts[0].id),
              noteId := None, discussionId := None, thread := NotApplicable)
      else if !row.status.NotPublished? || row.intent == Some(RemoveIntent) then
        calm.(status := Removed, thread := NotApplicable, intent := None)
      else if row.intent == Some(PublishIntent) then calm.(conflict := Some(OutcomeUnknown))
      else calm
  }

  function SyncRow(row: Row, key: Key, view: View, bot: Bot): Row {
    var matches := Matches(row, key, view, bot);
    var drafts := OwnDrafts(key, view, bot);
    if Settled(row) then row else Reconcile(row, matches, drafts, Moved(row, matches, drafts, view))
  }

  function SyncTable(table: map<Key, Row>, view: View, bot: Bot): map<Key, Row> {
    map key | key in table :: SyncRow(table[key], key, view, bot)
  }

  // ---- One owner action on a reconciled row --------------------------------------

  // How a remote call ends: answered, refused with an HTTP status, or unknown.
  datatype Fate = Done(noteId: Id, discussionId: Id) | Http(code: nat) | Unanswered

  predicate ClientError(fate: Fate) { fate.Http? && 400 <= fate.code < 500 && fate.code != 408 }

  // A 400 answer to an inline post is raised as a position error, which the
  // action does not recognize as a definitive rejection.
  predicate RecognizedRejection(key: Key, fate: Fate) {
    ClientError(fate) && !(key.Fingerprint? && fate.code == 400)
  }

  // Where the process dies, if it does. `DuringSync` dies after that many seeds were stored.
  datatype Crash = Never | DuringSync(stored: nat) | AfterSync | AfterIntent | AfterCall

  datatype Kind =
    | Post(body: string)
    | QueueDraft(body: string)
    | PublishDraft(draft: Option<Id>)
    | DeleteNote(note: Option<Id>)
    | DeleteDraft(draft: Option<Id>)
    | EditNote(note: Option<Id>, body: string)
    | EditDraft(draft: Option<Id>, body: string)
    | ResolveThread(discussion: Option<Id>)

  datatype Call = Call(key: Key, kind: Kind, fate: Fate)

  datatype Outcome = Succeeded | Skipped | Refused | Raised | Died

  // The row as durably stored afterwards, the remote calls made, and the answer.
  datatype Effect = Effect(row: Row, calls: seq<Call>, outcome: Outcome)

  datatype Env = Env(bot: Bot, maxInline: nat, maxPerFile: nat)

  datatype Request = Request(action: Action, expected: Option<string>)

  function SameFile<T>(items: seq<T>, fileOf: T -> Option<string>, file: Option<string>): nat {
    |Filter((x: T) => fileOf(x) == file, items)|
  }

  // The open threads that hold an inline comment, whoever wrote it.
  function OpenComments(view: View): seq<Discussion> {
    Filter((d: Discussion) => !d.resolved && exists n <- d.notes :: HoldsFingerprint(n.body), view.discussions)
  }

  predicate OverLimit(row: Row, view: View, env: Env) {
    var unresolved := OpenComments(view);
    var pending := Filter((n: Draft) => HoldsFingerprint(n.body) && row.draftId != Some(n.id), view.drafts);
    || |unresolved| + |pending| >= Min(15, env.maxInline)
    || SameFile(unresolved, (d: Discussion) => d.file, row.file)
       + SameFile(pending, (n: Draft) => n.file, row.file) >= Min(5, env.maxPerFile)
  }

  predicate Sendable(row: Row, key: Key) {
    row.eligible && row.body != "" && (key.Summary? || row.status.Drafted? || row.positioned)
  }

  function Completed(row: Row, action: Action): Row {
    row.(intent := None, actions := row.actions + [action])
  }

  // A call whose success is recorded by `success`; anything else leaves `pinned` stored.
  function Attempt(pinned: Row, call: Call, success: Row, action: Action, crash: Crash): Effect {
    if crash.AfterIntent? then Effect(pinned, [], Died)
    else if crash.AfterCall? then Effect(pinned, [call], Died)
    else if call.fate.Done? then Effect(Completed(success, action), [call], Succeeded)
    else Effect(pinned, [call], Raised)
  }

  function PostEffect(row: Row, key: Key, fate: Fate, crash: Crash): Effect {
    var pinned := row.(intent := Some(PublishIntent));
    var call := Call(key, Post(row.body), fate);
    if crash.Never? && RecognizedRejection(key, fate) then Effect(row.(intent := None), [call], Raised)
    else
      var receipt :=
        if !fate.Done? then pinned
        else if key.Summary? then pinned.(noteId := Some(fate.noteId))
        else pinned.(noteId := Some(fate.noteId), discussionId := Some(fate.discussionId));
      Attempt(pinned, call, receipt.(status := Committed), Publish, crash)
  }

  function PublishEffect(row: Row, key: Key, view: View, env: Env, fate: Fate, crash: Crash): Effect {
    if row.status.Committed? || row.status.Removed? then Effect(row, [], Skipped)
    else if !Sendable(row, key) then Effect(row, [], Skipped)
    else if key.Fingerprint? && OverLimit(row, view, env) then Effect(row, [], Refused)
    else if row.status.Drafted? then
      Attempt(row, Call(key, PublishDraft(row.draftId), fate), row.(status := Committed), Publish, crash)
    else PostEffect(row, key, fate, crash)
  }

  function RemoveEffect(row: Row, key: Key, fate: Fate, crash: Crash): Effect {
    if row.status.Removed? then Effect(row, [], Skipped)
    else if row.status.NotPublished? then Effect(row, [], Refused)
    else
      var pinned := row.(intent := Some(RemoveIntent), removedByOwner := true);
      var kind := if row.status.Drafted? then DeleteDraft(row.draftId) else DeleteNote(row.noteId);
      Attempt(pinned, Call(key, kind, fate), pinned.(status := Removed, thread := NotApplicable), Remove, crash)
  }

  function EditEffect(row: Row, key: Key, action: Action, fate: Fate, crash: Crash): Effect
    requires action.Edit?
  {
    if !row.status.Drafted? && !row.status.Committed? then Effect(row, [], Refused)
    else
      var body := Edited(row.body, action.message);
      if body.None? then Effect(row, [], Refused)
      else
        var kind :=
          if row.status.Drafted? then EditDraft(row.draftId, body.value) else EditNote(row.noteId, body.value);
        Attempt(row, Call(key, kind, fate), row.(body := body.value), action, crash)
  }

  function ResolveEffect(row: Row, key: Key, fate: Fate, crash: Crash): Effect {
    if !row.status.Committed? || !row.thread.Open? then Effect(row, [], Skipped)
    else Attempt(row, Call(key, ResolveThread(row.discussionId), fate), row.(thread := Resolved), Resolve, crash)
  }

  // `row` has just been reconciled with `view`.
  function ActOn(row: Row, key: Key, request: Request, view: View, env: Env, fate: Fate, crash: Crash): Effect {
    if crash.AfterSync? then Effect(row, [], Died)
    else if row.conflict.Some? then Effect(row, [], Refused)
    else if request.expected.Some? && request.expected.value != row.body then Effect(row, [], Refused)
    else if row.intent == Some(RemoveIntent) && !request.action.Remove? then Effect(row, [], Refused)
    else
      match request.action
      case Resolve => ResolveEffect(row, key, fate, crash)
      case Edit(_) => EditEffect(row, key, request.action, fate, crash)
      case Remove => RemoveEffect(row, key, fate, crash)
      case Publish => PublishEffect(row, key, view, env, fate, crash)
      case Unknown => Effect(row, [], Refused)
  }
}
