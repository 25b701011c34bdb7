/** Safety of the publication protocol over every run.

    A run is any sequence of reconciliations and owner actions, each with its own
    forge reading, remote fate and crash point. Nothing ties one reading to the next,
    so lost responses and delayed visibility are all included.
 */
module CommentProtocol {
  import opened Sequences
  import opened Comments
  import opened Markers

  // The durable rows and every remote mutation ever attempted.
  datatype World = World(table: map<Key, Row>, log: seq<Call>)

  datatype Source = Source(report: Report, findings: seq<(Key, Option<string>)>)

  datatype Op =
    | Sync(source: Source, view: View, crash: Crash)
    | Act(source: Source, view: View, crash: Crash, key: Key, request: Request, fate: Fate)

  // The rows once the stored report's new messages are tracked.
  function Tracked(table: map<Key, Row>, op: Op): map<Key, Row> {
    var seeds := Seeds(op.source.report, op.source.findings);
    Seeded(table, if op.crash.DuringSync? then seeds[..Min(op.crash.stored, |seeds|)] else seeds)
  }

  function Reconciled(table: map<Key, Row>, op: Op, env: Env): map<Key, Row> {
    if op.crash.DuringSync? then Tracked(table, op)
    else SyncTable(Tracked(table, op), op.view, env.bot)
  }

  function Next(w: World, op: Op, env: Env): World {
    var table := Reconciled(w.table, op, env);
    if op.Sync? || op.crash.DuringSync? || op.key !in table then World(table, w.log)
    else
      var e := ActOn(table[op.key], op.key, op.request, op.view, env, op.fate, op.crash);
      World(table[op.key := e.row], w.log + e.calls)
  }

  // The remote calls of one step.
  function Made(w: World, op: Op, env: Env): seq<Call> {
    var table := Reconciled(w.table, op, env);
    if op.Sync? || op.crash.DuringSync? || op.key !in table then []
    else ActOn(table[op.key], op.key, op.request, op.view, env, op.fate, op.crash).calls
  }

  function Run(w: World, ops: seq<Op>, env: Env): World
    decreases ops
  {
    if ops == [] then w else Run(Next(w, ops[0], env), ops[1..], env)
  }

  // A report that asks for nothing to be tracked.
  const NOTHING := Source(Report(None, [], ""), [])

  lemma NothingTracked(table: map<Key, Row>, op: Op)
    requires op.source == NOTHING && !op.crash.DuringSync?
    ensures Tracked(table, op) == table
  {
  }

  // ---- Counting the messages a key may have put in front of people -------------

  predicate MayHaveLanded(c: Call) { !ClientError(c.fate) }

  predicate IsPost(c: Call, key: Key) { c.key == key && c.kind.Post? && MayHaveLanded(c) }

  predicate IsDraftPublication(c: Call, key: Key) {
    c.key == key && c.kind.PublishDraft? && c.kind.draft.Some? && MayHaveLanded(c)
  }

  function Posts(log: seq<Call>, key: Key): nat {
    |Filter((c: Call) => IsPost(c, key), log)|
  }

  // The forge consumes a draft when it publishes it, so each id counts once.
  function PublishedDrafts(log: seq<Call>, key: Key): set<Id> {
    set c | c in log && IsDraftPublication(c, key) :: c.kind.draft.value
  }

  function Messages(log: seq<Call>, key: Key): nat {
    Posts(log, key) + |PublishedDrafts(log, key)|
  }

  lemma PostsGrow(log: seq<Call>, calls: seq<Call>, key: Key)
    requires |calls| <= 1
    ensures Posts(log + calls, key)
         == Posts(log, key) + (if calls != [] && IsPost(calls[0], key) then 1 else 0)
  {
    FilterAppend((c: Call) => IsPost(c, key), log, calls);
  }

  // ---- One step, seen from one row ------------------------------------------------

  function StepRow(row: Row, op: Op, key: Key, env: Env): Effect {
    if op.crash.DuringSync? then Effect(row, [], Died)
    else
      var synced := SyncRow(row, key, op.view, env.bot);
      if op.Act? && op.key == key then
        ActOn(synced, key, op.request, op.view, env, op.fate, op.crash)
      else Effect(synced, [], Succeeded)
  }

  predicate Fresh(row: Row) {
    && row.intent.None? && row.conflict.None? && !row.removedByOwner
    && row.noteId.None? && row.draftId.None? && !row.status.Removed? && row.eligible
  }

  lemma {:induction false} SeededRowsAreFresh(table: map<Key, Row>, seeds: seq<(Key, Row)>, key: Key)
    requires forall s <- seeds :: Fresh(s.1)
    requires key in Seeded(table, seeds) && key !in table
    ensures Fresh(Seeded(table, seeds)[key])
    decreases seeds
  {
    if seeds != [] {
      var (k, row) := seeds[0];
      var table' := if k in table then table else table[k := row];
      if k == key {
        SeedingKeepsRows(table', seeds[1..], key);
        assert Fresh(seeds[0].1);
      } else {
        SeededRowsAreFresh(table', seeds[1..], key);
      }
    }
  }

  lemma TrackingKeepsRows(table: map<Key, Row>, op: Op, key: Key)
    ensures key in table ==> key in Tracked(table, op) && Tracked(table, op)[key] == table[key]
    ensures key !in table && key in Tracked(table, op) ==> Fresh(Tracked(table, op)[key])
  {
    var seeds := Seeds(op.source.report, op.source.findings);
    assert forall s <- seeds :: Fresh(s.1);
    var used := if op.crash.DuringSync? then seeds[..Min(op.crash.stored, |seeds|)] else seeds;
    if key in table {
      SeedingKeepsRows(table, used, key);
    } else if key in Tracked(table, op) {
      SeededRowsAreFresh(table, used, key);
    }
  }

  // The owner asked for removal: either it is still pending or it is settled.
  predicate Withdrawn(row: Row) {
    Settled(row) || (row.removedByOwner && row.intent == Some(RemoveIntent)
                     && (row.status.Drafted? || row.status.Committed?))
  }

  predicate IsDeletion(c: Call) { c.kind.DeleteNote? || c.kind.DeleteDraft? }

  // The row either left `NotPublished` or records that a post may be under way.
  predicate Pinned(row: Row) { !row.status.NotPublished? || row.intent == Some(PublishIntent) }

  // The message the row would send, and whether it may be sent, are the same.
  predicate SameMessage(before: Row, after: Row) {
    after.body == before.body && after.eligible == before.eligible && after.positioned == before.positioned
  }

  // What one step may do to a row and to the forge on the row's behalf.
  predicate RowStep(before: Row, after: Row, calls: seq<Call>, key: Key) {
    && |calls| <= 1
    && (forall c <- calls :: c.key == key)
    && (!before.status.NotPublished? ==> !after.status.NotPublished?)
    && (Pinned(before) ==> Pinned(after))
    && (after.status.NotPublished? ==> SameMessage(before, after))
    && (forall c <- calls :: c.kind.Post? ==> !Pinned(before) && Sendable(before, key))
    && (forall c <- calls :: IsPost(c, key) ==> Pinned(after))
    && (Withdrawn(before) ==> Withdrawn(after) && forall c <- calls :: IsDeletion(c))
    && (Settled(before) ==> Settled(after) && calls == [])
    && (after.removedByOwner ==> before.removedByOwner || Withdrawn(after))
  }

  // Every call other than a post is addressed through the row's own receipts.
  predicate Targets(row: Row, c: Call) {
    match c.kind
    case Post(_) => true
    case QueueDraft(_) => false
    case DeleteNote(n) => row.status.Committed? && n == row.noteId
    case EditNote(n, _) => row.status.Committed? && n == row.noteId
    case ResolveThread(d) => row.status.Committed? && d == row.discussionId
    case DeleteDraft(n) => row.status.Drafted? && n == row.draftId
    case EditDraft(n, _) => row.status.Drafted? && n == row.draftId
    case PublishDraft(n) => row.status.Drafted? && n == row.draftId
  }

  lemma ReconcileIsRowStep(row: Row, matches: seq<(Discussion, Note)>, drafts: seq<Draft>, moved: bool, key: Key)
    requires !Settled(row)
    ensures RowStep(row, Reconcile(row, matches, drafts, moved), [], key)
    ensures var synced := Reconcile(row, matches, drafts, moved);
            synced.status.NotPublished? && synced.intent == Some(PublishIntent) ==> synced.conflict.Some?
  {
  }

  lemma SyncIsRowStep(row: Row, key: Key, view: View, bot: Bot)
    ensures RowStep(row, SyncRow(row, key, view, bot), [], key)
    ensures var synced := SyncRow(row, key, view, bot);
            synced.status.NotPublished? && synced.intent == Some(PublishIntent) ==> synced.conflict.Some?
  {
    if !Settled(row) {
      var matches, drafts := Matches(row, key, view, bot), OwnDrafts(key, view, bot);
      ReconcileIsRowStep(row, matches, drafts, Moved(row, matches, drafts, view), key);
    }
  }

  lemma PostIsRowStep(row: Row, key: Key, fate: Fate, crash: Crash)
    requires row.status.NotPublished? && Sendable(row, key)
    requires row.intent != Some(PublishIntent) && row.intent != Some(RemoveIntent)
    ensures var e := PostEffect(row, key, fate, crash);
            RowStep(row, e.row, e.calls, key) && forall c <- e.calls :: Targets(row, c)
  {
  }

  lemma PublishIsRowStep(row: Row, key: Key, view: View, env: Env, fate: Fate, crash: Crash)
    requires row.status.NotPublished? ==> row.intent != Some(PublishIntent)
    requires row.intent != Some(RemoveIntent)
    ensures var e := PublishEffect(row, key, view, env, fate, crash);
            RowStep(row, e.row, e.calls, key) && forall c <- e.calls :: Targets(row, c)
  {
    if row.status.NotPublished? && Sendable(row, key) {
      PostIsRowStep(row, key, fate, crash);
    } else if row.status.Drafted? {
      CarriedIsRowStep(row, row.(status := Committed), Call(key, PublishDraft(row.draftId), fate), Publish, crash);
    }
  }

  // However the call ends, the row is as pinned or as after a success.
  lemma AttemptIsRowStep(row: Row, pinned: Row, call: Call, success: Row, action: Action, crash: Crash)
    requires RowStep(row, pinned, [], call.key) && RowStep(row, pinned, [call], call.key)
    requires RowStep(row, Completed(success, action), [call], call.key) && Targets(row, call)
    ensures var e := Attempt(pinned, call, success, action, crash);
            RowStep(row, e.row, e.calls, call.key) && forall c <- e.calls :: Targets(row, c)
  {
  }

  lemma RemoveIsRowStep(row: Row, key: Key, fate: Fate, crash: Crash)
    ensures var e := RemoveEffect(row, key, fate, crash);
            RowStep(row, e.row, e.calls, key) && forall c <- e.calls :: Targets(row, c)
  {
    if row.status.Drafted? || row.status.Committed? {
      var pinned := row.(intent := Some(RemoveIntent), removedByOwner := true);
      var call := Call(key, if row.status.Drafted? then DeleteDraft(row.draftId) else DeleteNote(row.noteId), fate);
      AttemptIsRowStep(row, pinned, call, pinned.(status := Removed, thread := NotApplicable), Remove, crash);
    }
  }

  // Calls on a sent message that leave its status and intent alone.
  lemma CarriedIsRowStep(row: Row, success: Row, call: Call, action: Action, crash: Crash)
    requires (row.status.Drafted? || row.status.Committed?) && row.intent != Some(RemoveIntent)
    requires success.status == row.status || success.status.Committed?
    requires success.removedByOwner == row.removedByOwner
    requires Targets(row, call) && !call.kind.Post?
    ensures var e := Attempt(row, call, success, action, crash);
            RowStep(row, e.row, e.calls, call.key) && forall c <- e.calls :: Targets(row, c)
  {
    AttemptIsRowStep(row, row, call, success, action, crash);
  }

  lemma SentEditIsRowStep(row: Row, key: Key, body: string, action: Action, fate: Fate, crash: Crash)
    requires (row.status.Drafted? || row.status.Committed?) && row.intent != Some(RemoveIntent)
    ensures var kind := if row.status.Drafted? then EditDraft(row.draftId, body) else EditNote(row.noteId, body);
            var e := Attempt(row, Call(key, kind, fate), row.(body := body), action, crash);
            RowStep(row, e.row, e.calls, key) && forall c <- e.calls :: Targets(row, c)
  {
    var kind := if row.status.Drafted? then EditDraft(row.draftId, body) else EditNote(row.noteId, body);
    CarriedIsRowStep(row, row.(body := body), Call(key, kind, fate), action, crash);
  }

  lemma EditIsRowStep(row: Row, key: Key, action: Action, fate: Fate, crash: Crash)
    requires action.Edit? && row.intent != Some(RemoveIntent)
    ensures var e := EditEffect(row, key, action, fate, crash);
            RowStep(row, e.row, e.calls, key) && forall c <- e.calls :: Targets(row, c)
  {
    var body := Edited(row.body, action.message);
    if (row.status.Drafted? || row.status.Committed?) && body.Some? {
      SentEditIsRowStep(row, key, body.value, action, fate, crash);
    }
  }

  lemma ResolveIsRowStep(row: Row, key: Key, fate: Fate, crash: Crash)
    requires row.intent != Some(RemoveIntent)
    ensures var e := ResolveEffect(row, key, fate, crash);
            RowStep(row, e.row, e.calls, key) && forall c <- e.calls :: Targets(row, c)
  {
    if row.status.Committed? && row.thread.Open? {
      CarriedIsRowStep(row, row.(thread := Resolved), Call(key, ResolveThread(row.discussionId), fate), Resolve, crash);
    }
  }

  lemma ActIsRowStep(row: Row, key: Key, request: Request, view: View, env: Env, fate: Fate, crash: Crash)
    requires row.status.NotPublished? && row.intent == Some(PublishIntent) ==> row.conflict.Some?
    ensures var e := ActOn(row, key, request, view, env, fate, crash);
            RowStep(row, e.row, e.calls, key) && forall c <- e.calls :: Targets(row, c)
  {
    if row.intent != Some(RemoveIntent) && row.conflict.None? {
      match request.action
      case Resolve => ResolveIsRowStep(row, key, fate, crash);
      case Edit(_) => EditIsRowStep(row, key, request.action, fate, crash);
      case Remove => RemoveIsRowStep(row, key, fate, crash);
      case Publish => PublishIsRowStep(row, key, view, env, fate, crash);
      case Unknown =>
    } else {
      RemoveIsRowStep(row, key, fate, crash);
    }
  }

  lemma StepIsRowStep(row: Row, op: Op, key: Key, env: Env)
    ensures var e := StepRow(row, op, key, env); RowStep(row, e.row, e.calls, key)
  {
    if !op.crash.DuringSync? {
      SyncIsRowStep(row, key, op.view, env.bot);
      if op.Act? && op.key == key {
        ActIsRowStep(SyncRow(row, key, op.view, env.bot), key, op.request, op.view, env, op.fate, op.crash);
      }
    }
  }

  // The part of a step's calls made for `key`.
  function MadeFor(w: World, op: Op, env: Env, key: Key): seq<Call> {
    if op.Act? && op.key == key then Made(w, op, env) else []
  }

  lemma NextMakes(w: World, op: Op, env: Env)
    ensures Next(w, op, env).log == w.log + Made(w, op, env)
  {
    assert w.log + [] == w.log;
  }

  // A tracked row takes its own step.
  lemma NextIsStepRow(w: World, op: Op, env: Env, key: Key)
    requires key in Tracked(w.table, op)
    ensures var e := StepRow(Tracked(w.table, op)[key], op, key, env);
            && key in Next(w, op, env).table && Next(w, op, env).table[key] == e.row
            && MadeFor(w, op, env, key) == e.calls
  {
  }

  lemma MadeIsFor(w: World, op: Op, env: Env, key: Key)
    ensures |Made(w, op, env)| <= 1
    ensures Made(w, op, env) == MadeFor(w, op, env, key) || forall c <- Made(w, op, env) :: c.key != key
    ensures key !in Tracked(w.table, op) ==> MadeFor(w, op, env, key) == []
  {
    if op.Act? && op.key in Tracked(w.table, op) {
      NextIsStepRow(w, op, env, op.key);
      StepIsRowStep(Tracked(w.table, op)[op.key], op, op.key, env);
    }
  }

  // `extra` is what the step adds to the log; `calls` is the part made for `key`.
  lemma NextRow(w: World, op: Op, env: Env, key: Key) returns (calls: seq<Call>, extra: seq<Call>)
    ensures extra == Made(w, op, env) && calls == MadeFor(w, op, env, key)
    ensures Next(w, op, env).log == w.log + extra && |extra| <= 1
    ensures extra == calls || (calls == [] && forall c <- extra :: c.key != key)
    ensures key in Tracked(w.table, op) ==>
              && key in Next(w, op, env).table
              && RowStep(Tracked(w.table, op)[key], Next(w, op, env).table[key], calls, key)
    ensures key !in Tracked(w.table, op) ==> key !in Next(w, op, env).table && calls == []
  {
    extra, calls := Made(w, op, env), MadeFor(w, op, env, key);
    NextMakes(w, op, env);
    MadeIsFor(w, op, env, key);
    if key in Tracked(w.table, op) {
      NextIsStepRow(w, op, env, key);
      StepIsRowStep(Tracked(w.table, op)[key], op, key, env);
    }
  }

  // ---- At most one direct post ------------------------------------------------------

  // While a post may have landed, the row is pinned by its intent or has left `NotPublished`.
  ghost predicate PostPinned(w: World, key: Key) {
    && Posts(w.log, key) <= 1
    && (Posts(w.log, key) == 1 ==> key in w.table && Pinned(w.table[key]))
  }

  lemma NextKeepsPostPinned(w: World, op: Op, env: Env, key: Key)
    requires PostPinned(w, key)
    ensures PostPinned(Next(w, op, env), key)
  {
    TrackingKeepsRows(w.table, op, key);
    var calls, extra := NextRow(w, op, env, key);
    PostsGrow(w.log, extra, key);
  }

  lemma {:induction false} RunKeepsPostPinned(w: World, ops: seq<Op>, env: Env, key: Key)
    requires PostPinned(w, key)
    ensures PostPinned(Run(w, ops, env), key)
    decreases ops
  {
    if ops != [] {
      NextKeepsPostPinned(w, ops[0], env, key);
      RunKeepsPostPinned(Next(w, ops[0], env), ops[1..], env, key);
    }
  }

  /** Whatever the forge answers and wherever the process dies, a message is posted
      directly at most once, attempts the forge definitively refused aside. */
  lemma PostedAtMostOnce(w: World, ops: seq<Op>, env: Env, key: Key)
    requires w.log == []
    ensures Posts(Run(w, ops, env).log, key) <= 1
  {
    assert Posts([], key) == 0;
    RunKeepsPostPinned(w, ops, env, key);
  }

  /** A row that left `NotPublished` never returns to it. */
  lemma {:induction false} NeverUnpublishedAgain(w: World, ops: seq<Op>, env: Env, key: Key)
    requires key in w.table && !w.table[key].status.NotPublished?
    ensures key in Run(w, ops, env).table && !Run(w, ops, env).table[key].status.NotPublished?
    decreases ops
  {
    if ops != [] {
      TrackingKeepsRows(w.table, ops[0], key);
      var _, _ := NextRow(w, ops[0], env, key);
      NeverUnpublishedAgain(Next(w, ops[0], env), ops[1..], env, key);
    }
  }

  // ---- Removal by the owner is permanent ----------------------------------------------

  lemma NextKeepsWithdrawal(w: World, op: Op, env: Env, key: Key) returns (extra: seq<Call>)
    requires key in w.table && Withdrawn(w.table[key])
    ensures key in Next(w, op, env).table && Withdrawn(Next(w, op, env).table[key])
    ensures Settled(w.table[key]) ==> Settled(Next(w, op, env).table[key])
    ensures Next(w, op, env).log == w.log + extra
    ensures OnlyDeletes(extra, key, Settled(w.table[key]))
  {
    TrackingKeepsRows(w.table, op, key);
    var calls;
    calls, extra := NextRow(w, op, env, key);
  }

  // Calls that may follow a removal: deletions only, and none once the removal is settled.
  ghost predicate OnlyDeletes(calls: seq<Call>, key: Key, settled: bool) {
    forall c <- calls :: c.key == key ==> IsDeletion(c) && !settled
  }

  lemma OnlyDeletesAppend(a: seq<Call>, b: seq<Call>, key: Key, settled: bool)
    requires OnlyDeletes(a, key, settled) && OnlyDeletes(b, key, settled)
    ensures OnlyDeletes(a + b, key, settled)
  {
  }

  /** Once the owner's removal is stored, every later remote call for the message is a
      deletion; once it is settled there are no calls and the row stays removed. */
  lemma {:induction false} OwnerRemovalIsPermanent(w: World, ops: seq<Op>, env: Env, key: Key)
    returns (later: seq<Call>)
    requires key in w.table && Withdrawn(w.table[key])
    ensures key in Run(w, ops, env).table && Withdrawn(Run(w, ops, env).table[key])
    ensures Settled(w.table[key]) ==> Settled(Run(w, ops, env).table[key])
    ensures Run(w, ops, env).log == w.log + later
    ensures OnlyDeletes(later, key, Settled(w.table[key]))
    decreases ops
  {
    if ops == [] {
      later := [];
      assert w.log + later == w.log;
    } else {
      var next := Next(w, ops[0], env);
      var extra := NextKeepsWithdrawal(w, ops[0], env, key);
      var rest := OwnerRemovalIsPermanent(next, ops[1..], env, key);
      assert Run(w, ops, env) == Run(next, ops[1..], env);
      OnlyDeletesAppend(extra, rest, key, Settled(w.table[key]));
      Associative(w.log, extra, rest);
      return extra + rest;
    }
  }

  // Every row the owner removed is withdrawn: the flag is never stored half-way.
  ghost predicate RemovalsStored(w: World) {
    forall key <- w.table :: w.table[key].removedByOwner ==> Withdrawn(w.table[key])
  }

  lemma {:induction false} RemovalsStayStored(w: World, ops: seq<Op>, env: Env)
    requires RemovalsStored(w)
    ensures RemovalsStored(Run(w, ops, env))
    decreases ops
  {
    if ops != [] {
      var next := Next(w, ops[0], env);
      forall key <- next.table | next.table[key].removedByOwner
        ensures Withdrawn(next.table[key])
      {
        TrackingKeepsRows(w.table, ops[0], key);
        var _, _ := NextRow(w, ops[0], env, key);
      }
      RemovalsStayStored(next, ops[1..], env);
    }
  }

  // ---- Only the review's own messages are touched ---------------------------------------

  ghost predicate AddressesOwn(c: Call, view: View, env: Env) {
    match c.kind
    case Post(_) => true
    case QueueDraft(_) => false
    case DeleteNote(n) => exists x <- OwnNotes(c.key, view, env.bot) :: n == Some(x.1.id)
    case EditNote(n, _) => exists x <- OwnNotes(c.key, view, env.bot) :: n == Some(x.1.id)
    case ResolveThread(d) => exists x <- OwnNotes(c.key, view, env.bot) :: d == Some(x.0.id)
    case DeleteDraft(n) => exists x <- OwnDrafts(c.key, view, env.bot) :: n == Some(x.id)
    case EditDraft(n, _) => exists x <- OwnDrafts(c.key, view, env.bot) :: n == Some(x.id)
    case PublishDraft(n) => exists x <- OwnDrafts(c.key, view, env.bot) :: n == Some(x.id)
  }

  // A reconciled row without conflict mirrors an own message of the reading.
  ghost predicate Mirrors(row: Row, key: Key, view: View, env: Env) {
    && (row.status.Committed? ==>
          exists x <- OwnNotes(key, view, env.bot) ::
            row.noteId == Some(x.1.id) && row.discussionId == Some(x.0.id)
            && row.body == x.1.body && row.thread == ThreadOf(x.0))
    && (row.status.Drafted? ==>
          exists n <- OwnDrafts(key, view, env.bot) :: row.draftId == Some(n.id) && row.body == n.body)
  }

  lemma ReconcileMirrors(row: Row, matches: seq<(Discussion, Note)>, drafts: seq<Draft>, moved: bool)
    requires Reconcile(row, matches, drafts, moved).conflict.None?
    ensures var synced := Reconcile(row, matches, drafts, moved);
            && (synced.status.Committed? ==>
                  matches != [] && synced == Located(row.(conflict := None), matches[0].0, matches[0].1))
            && (synced.status.Drafted? ==>
                  drafts != [] && synced.draftId == Some(drafts[0].id) && synced.body == drafts[0].body)
  {
  }

  lemma SyncLocates(row: Row, key: Key, view: View, env: Env)
    requires row.removedByOwner ==> Withdrawn(row)
    requires SyncRow(row, key, view, env.bot).conflict.None?
    ensures Mirrors(SyncRow(row, key, view, env.bot), key, view, env)
  {
    var own := OwnNotes(key, view, env.bot);
    var matches := Matches(row, key, view, env.bot);
    if matches != [] {
      FilterMember((x: (Discussion, Note)) => row.noteId == Some(x.1.id), own, matches[0]);
      FilterMember((x: (Discussion, Note)) => !x.0.resolved, own, matches[0]);
      assert matches[0] in own;
    }
    var drafts := OwnDrafts(key, view, env.bot);
    assert drafts != [] ==> drafts[0] in drafts;
    if !Settled(row) {
      ReconcileMirrors(row, matches, drafts, Moved(row, matches, drafts, view));
    }
  }

  lemma TargetsAreOwn(row: Row, c: Call, view: View, env: Env)
    requires Mirrors(row, c.key, view, env) && Targets(row, c)
    ensures AddressesOwn(c, view, env)
  {
  }

  lemma ActsOnlyInAgreement(row: Row, key: Key, request: Request, view: View, env: Env, fate: Fate, crash: Crash)
    ensures row.conflict.Some? ==> ActOn(row, key, request, view, env, fate, crash).calls == []
  {
  }

  /** Edits, deletions, resolutions and publications name a note, thread or draft that the
      same action has just read as this review's own. */
  lemma CallsAddressOwnMessages(row: Row, op: Op, key: Key, env: Env)
    requires row.removedByOwner ==> Withdrawn(row)
    ensures forall c <- StepRow(row, op, key, env).calls :: c.key == key && AddressesOwn(c, op.view, env)
  {
    if op.Act? && op.key == key && !op.crash.DuringSync? {
      var synced := SyncRow(row, key, op.view, env.bot);
      SyncIsRowStep(row, key, op.view, env.bot);
      ActIsRowStep(synced, key, op.request, op.view, env, op.fate, op.crash);
      ActsOnlyInAgreement(synced, key, op.request, op.view, env, op.fate, op.crash);
      if synced.conflict.None? {
        SyncLocates(row, key, op.view, env);
        forall c <- StepRow(row, op, key, env).calls ensures c.key == key && AddressesOwn(c, op.view, env) {
          TargetsAreOwn(synced, c, op.view, env);
        }
      }
    }
  }
}
