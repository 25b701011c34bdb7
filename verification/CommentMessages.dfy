/** Exactly when a message reaches people at most once.

    A direct post is protected by its stored intent, the publication of a draft by the
    forge consuming it. The two do not protect each other: a hidden draft that shows up
    after a direct post is published as a second message.
 */
module CommentMessages {
  import opened Sequences
  import opened Markers
  import opened Comments
  import opened CommentMarks
  import opened CommentProtocol

  // A cap of zero closes inline comments altogether; it does not bind the summary.
  predicate Capped(key: Key, env: Env) { key.Fingerprint? && (env.maxInline == 0 || env.maxPerFile == 0) }

  // Nothing is ever sent for such a row.
  predicate Barred(row: Row, key: Key, env: Env) { row.removedByOwner || !row.eligible || Capped(key, env) }

  predicate CanPost(row: Row, key: Key) { row.status.NotPublished? && row.intent.None? && Sendable(row, key) }

  // The ways a message can be sent: publishing one of the drafts of it, or a direct post.
  function Channels(row: Row, key: Key, drafts: set<Id>, env: Env): nat {
    if Barred(row, key, env) then 0 else |drafts| + if CanPost(row, key) then 1 else 0
  }

  // Every draft of this message that `op` gets to see is one of `drafts`.
  ghost predicate Shows(op: Op, key: Key, drafts: set<Id>, env: Env) {
    forall n <- OwnDrafts(key, op.view, env.bot) :: n.id in drafts
  }

  // Any stored rows a run can leave, nothing sent yet.
  ghost predicate Start(w: World, key: Key) { w.log == [] && key in w.table && RemovalsStored(w) }

  // ---- No run sends more than there are channels ----------------------------------------------

  predicate Sends(c: Call) { c.kind.Post? || c.kind.PublishDraft? }

  predicate NoSends(calls: seq<Call>, key: Key) { forall c <- calls :: c.key == key ==> !Sends(c) }

  lemma ReconcileKeepsFlags(row: Row, matches: seq<(Discussion, Note)>, drafts: seq<Draft>, moved: bool)
    ensures var synced := Reconcile(row, matches, drafts, moved);
            synced.removedByOwner == row.removedByOwner && synced.eligible == row.eligible
  {
  }

  lemma BarredSync(row: Row, key: Key, view: View, bot: Bot)
    ensures var synced := SyncRow(row, key, view, bot);
            synced.removedByOwner == row.removedByOwner && synced.eligible == row.eligible
  {
    var matches, drafts := Matches(row, key, view, bot), OwnDrafts(key, view, bot);
    ReconcileKeepsFlags(row, matches, drafts, Moved(row, matches, drafts, view));
  }

  lemma BarredPublish(row: Row, key: Key, view: View, env: Env, fate: Fate, crash: Crash)
    requires !row.eligible || Capped(key, env)
    ensures var e := PublishEffect(row, key, view, env, fate, crash); e.calls == [] && e.row == row
  {
    assert Capped(key, env) ==> OverLimit(row, view, env);
  }

  lemma BarredEdit(row: Row, key: Key, action: Action, fate: Fate, crash: Crash)
    requires action.Edit?
    ensures var e := EditEffect(row, key, action, fate, crash);
            NoSends(e.calls, key) && e.row.eligible == row.eligible && e.row.removedByOwner == row.removedByOwner
  {
  }

  lemma BarredRemove(row: Row, key: Key, fate: Fate, crash: Crash)
    ensures var e := RemoveEffect(row, key, fate, crash);
            NoSends(e.calls, key) && e.row.eligible == row.eligible && (row.removedByOwner ==> e.row.removedByOwner)
  {
  }

  lemma BarredResolve(row: Row, key: Key, fate: Fate, crash: Crash)
    ensures var e := ResolveEffect(row, key, fate, crash);
            NoSends(e.calls, key) && e.row.eligible == row.eligible && e.row.removedByOwner == row.removedByOwner
  {
  }

  lemma BarredAction(row: Row, key: Key, request: Request, view: View, env: Env, fate: Fate, crash: Crash)
    requires !request.action.Publish? || !row.eligible || Capped(key, env)
    ensures var e := ActOn(row, key, request, view, env, fate, crash);
            NoSends(e.calls, key) && e.row.eligible == row.eligible && (row.removedByOwner ==> e.row.removedByOwner)
  {
    match request.action
    case Publish => BarredPublish(row, key, view, env, fate, crash);
    case Edit(_) => BarredEdit(row, key, request.action, fate, crash);
    case Remove => BarredRemove(row, key, fate, crash);
    case Resolve => BarredResolve(row, key, fate, crash);
    case Unknown =>
  }

  lemma BarredStep(row: Row, op: Op, key: Key, env: Env)
    requires Barred(row, key, env) && (row.removedByOwner ==> Withdrawn(row))
    ensures Barred(StepRow(row, op, key, env).row, key, env) && NoSends(StepRow(row, op, key, env).calls, key)
  {
    StepIsRowStep(row, op, key, env);
    BarredSync(row, key, op.view, env.bot);
    if op.Act? && (!row.removedByOwner || !op.request.action.Publish?) {
      BarredAction(SyncRow(row, key, op.view, env.bot), key, op.request, op.view, env, op.fate, op.crash);
    }
  }

  // What a row may still send, and what was sent.
  ghost predicate Bounded(w: World, key: Key, drafts: set<Id>, env: Env, barred: bool, postable: bool) {
    && PostPinned(w, key)
    && RemovalsStored(w)
    && PublishedDrafts(w.log, key) <= drafts
    && key in w.table
    && (!postable ==> !CanPost(w.table[key], key) && Posts(w.log, key) == 0)
    && (barred ==> Barred(w.table[key], key, env) && NoSends(w.log, key))
  }

  lemma PublishedGrow(log: seq<Call>, calls: seq<Call>, key: Key)
    ensures PublishedDrafts(log + calls, key) == PublishedDrafts(log, key) + PublishedDrafts(calls, key)
  {
  }

  // A post needs a row that can be posted, and no other row comes to be one.
  lemma OnlyPostableRowsPost(row: Row, op: Op, key: Key, env: Env)
    ensures !CanPost(row, key) ==> !CanPost(StepRow(row, op, key, env).row, key)
    ensures !CanPost(row, key) ==> forall c <- StepRow(row, op, key, env).calls :: !c.kind.Post?
  {
    StepIsRowStep(row, op, key, env);
    if row.status.NotPublished? && row.intent == Some(RemoveIntent) {
      BlockedStep(row, op, key, env);
    } else {
      PostNeedsPostable(row, StepRow(row, op, key, env).row, StepRow(row, op, key, env).calls, key);
    }
  }

  lemma PostNeedsPostable(before: Row, after: Row, calls: seq<Call>, key: Key)
    requires RowStep(before, after, calls, key)
    requires !before.status.NotPublished? || before.intent != Some(RemoveIntent)
    ensures !CanPost(before, key) ==> !CanPost(after, key) && forall c <- calls :: !c.kind.Post?
  {
    match before.intent
    case None =>
    case Some(PublishIntent) =>
    case Some(RemoveIntent) =>
  }

  // No post is made for such a row.
  predicate Blocked(row: Row) { !row.status.NotPublished? || row.intent == Some(RemoveIntent) }

  lemma BlockedStep(row: Row, op: Op, key: Key, env: Env)
    requires row.status.NotPublished? && row.intent == Some(RemoveIntent)
    ensures var e := StepRow(row, op, key, env); Blocked(e.row) && forall c <- e.calls :: !c.kind.Post?
  {
    if !op.crash.DuringSync? {
      BlockedSync(row, key, op.view, env.bot);
      if op.Act? && op.key == key {
        BlockedAction(SyncRow(row, key, op.view, env.bot), key, op.request, op.view, env, op.fate, op.crash);
      }
    }
  }

  lemma BlockedSync(row: Row, key: Key, view: View, bot: Bot)
    requires row.status.NotPublished? && row.intent == Some(RemoveIntent)
    ensures var synced := SyncRow(row, key, view, bot);
            !synced.status.NotPublished? || (synced.conflict.Some? && synced.intent == Some(RemoveIntent))
  {
    var matches, drafts := Matches(row, key, view, bot), OwnDrafts(key, view, bot);
    BlockedReconcile(row, matches, drafts, Moved(row, matches, drafts, view));
  }

  lemma BlockedReconcile(row: Row, matches: seq<(Discussion, Note)>, drafts: seq<Draft>, moved: bool)
    requires row.status.NotPublished? && row.intent == Some(RemoveIntent)
    ensures var synced := Reconcile(row, matches, drafts, moved);
            !synced.status.NotPublished? || (synced.conflict.Some? && synced.intent == Some(RemoveIntent))
  {
  }

  lemma BlockedAction(row: Row, key: Key, request: Request, view: View, env: Env, fate: Fate, crash: Crash)
    requires !row.status.NotPublished? || (row.conflict.Some? && row.intent == Some(RemoveIntent))
    ensures var e := ActOn(row, key, request, view, env, fate, crash);
            Blocked(e.row) && forall c <- e.calls :: !c.kind.Post?
  {
    ActIsRowStep(row, key, request, view, env, fate, crash);
  }

  lemma NextKeepsBound(w: World, op: Op, env: Env, key: Key, drafts: set<Id>, barred: bool, postable: bool)
    requires Bounded(w, key, drafts, env, barred, postable) && Shows(op, key, drafts, env)
    ensures Bounded(Next(w, op, env), key, drafts, env, barred, postable)
  {
    var extra := Made(w, op, env);
    TrackingKeepsRows(w.table, op, key);
    NextIsStepRow(w, op, env, key);
    NextMakes(w, op, env);
    MadeIsFor(w, op, env, key);
    NextKeepsPostPinned(w, op, env, key);
    RemovalsStayStored(w, [op], env);
    assert Run(w, [op], env) == Next(w, op, env);
    PostsGrow(w.log, extra, key);
    PublishedGrow(w.log, extra, key);
    CallsAddressOwnMessages(w.table[key], op, key, env);
    OnlyPostableRowsPost(w.table[key], op, key, env);
    if barred {
      BarredStep(w.table[key], op, key, env);
    }
  }

  lemma {:induction false} RunKeepsBound(w: World, ops: seq<Op>, env: Env, key: Key, drafts: set<Id>, barred: bool,
      postable: bool)
    requires Bounded(w, key, drafts, env, barred, postable) && forall op <- ops :: Shows(op, key, drafts, env)
    ensures Bounded(Run(w, ops, env), key, drafts, env, barred, postable)
    decreases ops
  {
    if ops != [] {
      assert ops[0] in ops;
      NextKeepsBound(w, ops[0], env, key, drafts, barred, postable);
      RunKeepsBound(Next(w, ops[0], env), ops[1..], env, key, drafts, barred, postable);
    }
  }

  lemma {:induction false} NothingSent(log: seq<Call>, key: Key)
    requires NoSends(log, key)
    ensures Messages(log, key) == 0
  {
    var posts := Filter((c: Call) => IsPost(c, key), log);
    if posts != [] {
      FilterMember((c: Call) => IsPost(c, key), log, posts[0]);
      assert false;
    }
    assert PublishedDrafts(log, key) == {};
  }

  /** The messages sent never exceed the channels: the drafts that exist, plus one when a
      direct post is possible, and none at all from a barred row. */
  lemma MessagesBounded(w: World, ops: seq<Op>, env: Env, key: Key, drafts: set<Id>)
    requires Start(w, key) && forall op <- ops :: Shows(op, key, drafts, env)
    ensures Messages(Run(w, ops, env).log, key) <= Channels(w.table[key], key, drafts, env)
  {
    var barred, postable := Barred(w.table[key], key, env), CanPost(w.table[key], key);
    assert Posts([], key) == 0;
    RunKeepsBound(w, ops, env, key, drafts, barred, postable);
    SubsetSize(PublishedDrafts(Run(w, ops, env).log, key), drafts);
    if barred {
      NothingSent(Run(w, ops, env).log, key);
    }
  }

  // ---- Every channel can be used ---------------------------------------------------------------

  function OwnCopy(id: Id, key: Key, bot: Bot): Draft { Draft(id, bot.id, OwnText(key, bot), false, None) }

  function PublishWhen(drafts: seq<Draft>, key: Key): Op {
    Act(NOTHING, View(drafts, []), Never, key, Request(Publish, None), Done(0, 0))
  }

  // A reading that hides every message.
  function Hidden(): Op { Sync(NOTHING, View([], []), Never) }

  // Ready to take up and publish a draft that shows up.
  predicate Ready(row: Row) { !row.removedByOwner && row.intent != Some(RemoveIntent) && row.eligible }

  lemma ReadingOf(drafts: seq<Draft>, key: Key, bot: Bot)
    ensures OwnNotes(key, View(drafts, []), bot) == []
  {
  }

  lemma HiddenReadingReadies(w: World, env: Env, key: Key)
    requires key in w.table && !w.table[key].removedByOwner && w.table[key].eligible
    ensures var next := Next(w, Hidden(), env);
            next.log == w.log && key in next.table && Ready(next.table[key])
  {
    ReadingOf([], key, env.bot);
    NothingTracked(w.table, Hidden());
    NextIsStepRow(w, Hidden(), env, key);
  }

  lemma ShownDraftAction(row: Row, key: Key, env: Env, n: Draft)
    requires !Capped(key, env) && Ready(row) && row.status.Drafted? && row.draftId == Some(n.id)
    requires row.conflict.None? && row.body != ""
    ensures var e := ActOn(row, key, Request(Publish, None), View([n], []), env, Done(0, 0), Never);
            e.calls == [Call(key, PublishDraft(Some(n.id)), Done(0, 0))] && Ready(e.row)
  {
    FilterOne((d: Draft) => HoldsFingerprint(d.body) && row.draftId != Some(d.id), n);
    assert key.Fingerprint? ==> !OverLimit(row, View([n], []), env);
  }

  lemma ShownDraftReading(row: Row, key: Key, bot: Bot, id: Id)
    requires !row.removedByOwner
    ensures var synced := SyncRow(row, key, View([OwnCopy(id, key, bot)], []), bot);
            && synced == Reconcile(row, [], [OwnCopy(id, key, bot)], false)
            && synced.status.Drafted? && synced.draftId == Some(id) && synced.conflict.None? && synced.body != ""
  {
    var n := OwnCopy(id, key, bot);
    var view := View([n], []);
    OwnTextIsOwn(key, bot);
    FilterOne((d: Draft) => OwnDraft(d, key, bot), n);
    ReadingOf([n], key, bot);
    assert OwnDrafts(key, view, bot) == [n] && Matches(row, key, view, bot) == [];
  }

  lemma ShownDraftIsPublished(w: World, env: Env, key: Key, id: Id)
    requires key in w.table && Ready(w.table[key]) && !Capped(key, env)
    ensures var next := Next(w, PublishWhen([OwnCopy(id, key, env.bot)], key), env);
            && next.log == w.log + [Call(key, PublishDraft(Some(id)), Done(0, 0))]
            && key in next.table && Ready(next.table[key])
  {
    var n := OwnCopy(id, key, env.bot);
    var op := PublishWhen([n], key);
    NothingTracked(w.table, op);
    NextIsStepRow(w, op, env, key);
    NextMakes(w, op, env);
    ShownDraftReading(w.table[key], key, env.bot, id);
    ShownDraftAction(SyncRow(w.table[key], key, op.view, env.bot), key, env, n);
  }

  lemma HiddenReadingPosts(w: World, env: Env, key: Key)
    requires key in w.table && CanPost(w.table[key], key) && !Barred(w.table[key], key, env)
    ensures var next := Next(w, PublishWhen([], key), env);
            && next.log == w.log + [Call(key, Post(w.table[key].body), Done(0, 0))]
            && key in next.table && Ready(next.table[key])
  {
    var op, row := PublishWhen([], key), w.table[key];
    NothingTracked(w.table, op);
    NextIsStepRow(w, op, env, key);
    NextMakes(w, op, env);
    HiddenReading(row, key, env.bot);
    HiddenAction(row.(conflict := None), key, env);
  }

  lemma HiddenReading(row: Row, key: Key, bot: Bot)
    requires row.status.NotPublished? && row.intent.None?
    ensures SyncRow(row, key, View([], []), bot) == row.(conflict := None)
  {
    ReadingOf([], key, bot);
    assert Matches(row, key, View([], []), bot) == [] && OwnDrafts(key, View([], []), bot) == [];
  }

  lemma HiddenAction(row: Row, key: Key, env: Env)
    requires CanPost(row, key) && row.conflict.None? && !Barred(row, key, env)
    ensures var e := ActOn(row, key, Request(Publish, None), View([], []), env, Done(0, 0), Never);
            e.calls == [Call(key, Post(row.body), Done(0, 0))] && Ready(e.row)
  {
    assert key.Fingerprint? ==> !OverLimit(row, View([], []), env);
  }

  lemma CountTwo(a: Call, b: Call, key: Key)
    requires IsDraftPublication(b, key)
    requires IsPost(a, key) || (IsDraftPublication(a, key) && a.kind.draft != b.kind.draft)
    ensures Messages([a, b], key) >= 2
  {
    PostsGrow([], [a], key);
    PostsGrow([a], [b], key);
    assert [] + [a] == [a] && [a] + [b] == [a, b] && Posts([], key) == 0;
    var ids := PublishedDrafts([a, b], key);
    assert b in [a, b] && a in [a, b];
    assert b.kind.draft.value in ids;
    SubsetSize({b.kind.draft.value}, ids);
    if IsDraftPublication(a, key) {
      SubsetSize({a.kind.draft.value, b.kind.draft.value}, ids);
    }
  }

  lemma RunOne(w: World, op: Op, env: Env)
    ensures Run(w, [op], env) == Next(w, op, env)
  {
    assert Run(Next(w, op, env), [], env) == Next(w, op, env);
  }

  lemma RunFirst(w: World, first: Op, rest: seq<Op>, env: Env)
    ensures Run(w, [first] + rest, env) == Run(Next(w, first, env), rest, env)
  {
    assert ([first] + rest)[1..] == rest;
  }

  // A draft that shows up after one call is published as a second message.
  lemma DraftAfter(w: World, env: Env, key: Key, a: Call, id: Id)
    requires w.log == [a] && key in w.table && Ready(w.table[key]) && !Capped(key, env)
    requires IsPost(a, key) || (IsDraftPublication(a, key) && a.kind.draft != Some(id))
    ensures Messages(Run(w, [PublishWhen([OwnCopy(id, key, env.bot)], key)], env).log, key) >= 2
  {
    var op, b := PublishWhen([OwnCopy(id, key, env.bot)], key), Call(key, PublishDraft(Some(id)), Done(0, 0));
    ShownDraftIsPublished(w, env, key, id);
    RunOne(w, op, env);
    assert [a] + [b] == [a, b];
    CountTwo(a, b, key);
  }

  lemma PostThenDraft(w: World, env: Env, key: Key, id: Id)
    requires Start(w, key) && CanPost(w.table[key], key) && !Barred(w.table[key], key, env)
    ensures var ops := [PublishWhen([], key)] + [PublishWhen([OwnCopy(id, key, env.bot)], key)];
            Messages(Run(w, ops, env).log, key) >= 2
  {
    HiddenReadingPosts(w, env, key);
    var first, a := PublishWhen([], key), Call(key, Post(w.table[key].body), Done(0, 0));
    RunFirst(w, first, [PublishWhen([OwnCopy(id, key, env.bot)], key)], env);
    assert [] + [a] == [a];
    DraftAfter(Next(w, first, env), env, key, a, id);
  }

  lemma DraftThenDraft(w: World, env: Env, key: Key, a: Id, b: Id)
    requires w.log == [] && key in w.table && Ready(w.table[key]) && !Capped(key, env) && a != b
    ensures var ops := [PublishWhen([OwnCopy(a, key, env.bot)], key)] + [PublishWhen([OwnCopy(b, key, env.bot)], key)];
            Messages(Run(w, ops, env).log, key) >= 2
  {
    ShownDraftIsPublished(w, env, key, a);
    var first, call := PublishWhen([OwnCopy(a, key, env.bot)], key), Call(key, PublishDraft(Some(a)), Done(0, 0));
    RunFirst(w, first, [PublishWhen([OwnCopy(b, key, env.bot)], key)], env);
    assert [] + [call] == [call];
    DraftAfter(Next(w, first, env), env, key, call, b);
  }

  lemma ShowsCopies(op: Op, key: Key, drafts: set<Id>, env: Env)
    requires forall n <- op.view.drafts :: n.id in drafts
    ensures Shows(op, key, drafts, env)
  {
    forall n <- OwnDrafts(key, op.view, env.bot) ensures n.id in drafts {
      FilterMember((d: Draft) => OwnDraft(d, key, env.bot), op.view.drafts, n);
    }
  }

  lemma PostAndDraft(w: World, env: Env, key: Key, drafts: set<Id>) returns (ops: seq<Op>)
    requires Start(w, key) && CanPost(w.table[key], key) && !Barred(w.table[key], key, env) && drafts != {}
    ensures forall op <- ops, n <- op.view.drafts :: n.id in drafts
    ensures Messages(Run(w, ops, env).log, key) >= 2
  {
    var b :| b in drafts;
    PostThenDraft(w, env, key, b);
    ops := [PublishWhen([], key)] + [PublishWhen([OwnCopy(b, key, env.bot)], key)];
  }

  lemma TwoDrafts(w: World, env: Env, key: Key, drafts: set<Id>) returns (ops: seq<Op>)
    requires Start(w, key) && !Barred(w.table[key], key, env) && |drafts| >= 2
    ensures forall op <- ops, n <- op.view.drafts :: n.id in drafts
    ensures Messages(Run(w, ops, env).log, key) >= 2
  {
    var a :| a in drafts;
    assert |drafts - {a}| >= 1;
    var b :| b in drafts - {a};
    HiddenReadingReadies(w, env, key);
    var rest := [PublishWhen([OwnCopy(a, key, env.bot)], key)] + [PublishWhen([OwnCopy(b, key, env.bot)], key)];
    DraftThenDraft(Next(w, Hidden(), env), env, key, a, b);
    RunFirst(w, Hidden(), rest, env);
    ops := [Hidden()] + rest;
  }

  /** Two channels are one too many: some run sends the message twice. */
  lemma SecondMessage(w: World, env: Env, key: Key, drafts: set<Id>) returns (ops: seq<Op>)
    requires Start(w, key) && Channels(w.table[key], key, drafts, env) >= 2
    ensures forall op <- ops :: Shows(op, key, drafts, env)
    ensures Messages(Run(w, ops, env).log, key) >= 2
  {
    if CanPost(w.table[key], key) {
      ops := PostAndDraft(w, env, key, drafts);
    } else {
      ops := TwoDrafts(w, env, key, drafts);
    }
    forall op <- ops ensures Shows(op, key, drafts, env) {
      ShowsCopies(op, key, drafts, env);
    }
  }

  /** From any stored row, whatever the caps, a message is certain to appear at most once
      exactly when at most one channel can carry it. */
  lemma AtMostOnceExactly(w: World, env: Env, key: Key, drafts: set<Id>)
    requires Start(w, key)
    ensures (forall ops: seq<Op> | (forall op <- ops :: Shows(op, key, drafts, env)) ::
               Messages(Run(w, ops, env).log, key) <= 1)
       <==> Channels(w.table[key], key, drafts, env) <= 1
  {
    if Channels(w.table[key], key, drafts, env) <= 1 {
      forall ops: seq<Op> | forall op <- ops :: Shows(op, key, drafts, env)
        ensures Messages(Run(w, ops, env).log, key) <= 1
      {
        MessagesBounded(w, ops, env, key, drafts);
      }
    } else {
      var ops := SecondMessage(w, env, key, drafts);
    }
  }
}
