/** What follows a post the forge definitively refused.

    Such an answer created nothing, so the row is released and may be posted again. A 400
    answer to an inline post, however, reaches the action as a position error: the publish
    intent stays, and the row waits for a note that does not exist.
 */
module CommentRejections {
  import opened Sequences
  import opened Markers
  import opened Comments
  import opened CommentProtocol
  import opened CommentMessages

  // The reading shows no message of the key.
  ghost predicate Empty(view: View, key: Key, bot: Bot) {
    OwnNotes(key, view, bot) == [] && OwnDrafts(key, view, bot) == []
  }

  ghost predicate AllEmpty(ops: seq<Op>, key: Key, bot: Bot) { forall op <- ops :: Empty(op.view, key, bot) }

  // A row that waits for the note of a post whose outcome it does not know.
  predicate Waiting(row: Row) { row.status.NotPublished? && row.intent == Some(PublishIntent) }

  lemma WaitingReading(row: Row, key: Key, view: View, bot: Bot)
    requires Waiting(row) && Empty(view, key, bot)
    ensures Waiting(SyncRow(row, key, view, bot)) && SyncRow(row, key, view, bot).conflict.Some?
  {
    assert Matches(row, key, view, bot) == [];
  }

  lemma RefusedOnConflict(row: Row, key: Key, request: Request, view: View, env: Env, fate: Fate, crash: Crash)
    requires row.conflict.Some?
    ensures var e := ActOn(row, key, request, view, env, fate, crash); e.row == row && e.calls == []
  {
  }

  lemma WaitingStep(w: World, op: Op, env: Env, key: Key)
    requires key in w.table && Waiting(w.table[key]) && Empty(op.view, key, env.bot)
    ensures key in Next(w, op, env).table && Waiting(Next(w, op, env).table[key])
    ensures forall c <- Made(w, op, env) :: c.key != key
  {
    TrackingKeepsRows(w.table, op, key);
    NextIsStepRow(w, op, env, key);
    MadeIsFor(w, op, env, key);
    WaitingReading(w.table[key], key, op.view, env.bot);
    if op.Act? {
      RefusedOnConflict(SyncRow(w.table[key], key, op.view, env.bot), key, op.request, op.view, env, op.fate, op.crash);
    }
  }

  // From one log to the other, only calls for other messages were added.
  ghost predicate Silent(before: seq<Call>, after: seq<Call>, key: Key) {
    before <= after && forall i | |before| <= i < |after| :: after[i].key != key
  }

  lemma SilentChain(first: seq<Call>, extra: seq<Call>, last: seq<Call>, key: Key)
    requires (forall c <- extra :: c.key != key) && Silent(first + extra, last, key)
    ensures Silent(first, last, key)
  {
    forall i | |first| <= i < |last| ensures last[i].key != key {
      if i < |first + extra| {
        assert last[i] == (first + extra)[i] == extra[i - |first|];
      }
    }
  }

  lemma {:induction false} WaitingRowsAreSilent(w: World, ops: seq<Op>, env: Env, key: Key)
    requires key in w.table && Waiting(w.table[key]) && AllEmpty(ops, key, env.bot)
    ensures key in Run(w, ops, env).table && Waiting(Run(w, ops, env).table[key])
    ensures Silent(w.log, Run(w, ops, env).log, key)
    decreases ops
  {
    if ops != [] {
      assert ops[0] in ops;
      WaitingStep(w, ops[0], env, key);
      NextMakes(w, ops[0], env);
      WaitingRowsAreSilent(Next(w, ops[0], env), ops[1..], env, key);
      SilentChain(w.log, Made(w, ops[0], env), Run(w, ops, env).log, key);
    }
  }

  // The row a refused post leaves.
  lemma RefusedPost(row: Row, key: Key, fate: Fate)
    requires CanPost(row, key) && ClientError(fate)
    ensures var e := PostEffect(row, key, fate, Never);
            && e.calls == [Call(key, Post(row.body), fate)] && e.outcome == Raised
            && e.row == (if RecognizedRejection(key, fate) then row else row.(intent := Some(PublishIntent)))
  {
  }

  lemma RetryPosts(w: World, env: Env, key: Key)
    requires key in w.table && CanPost(w.table[key], key) && !Barred(w.table[key], key, env)
    ensures !Silent(w.log, Run(w, [PublishWhen([], key)], env).log, key)
  {
    HiddenReadingPosts(w, env, key);
    RunOne(w, PublishWhen([], key), env);
    assert Run(w, [PublishWhen([], key)], env).log[|w.log|].key == key;
  }

  /** After a definitive refusal the message can be sent again while no reading shows it,
      exactly when the action recognized the refusal as one. */
  lemma RetriedExactlyWhenRecognized(w: World, env: Env, key: Key, row: Row, fate: Fate)
    requires CanPost(row, key) && !Barred(row, key, env) && ClientError(fate)
    requires key in w.table && w.table[key] == PostEffect(row, key, fate, Never).row
    ensures (exists ops: seq<Op> | AllEmpty(ops, key, env.bot) :: !Silent(w.log, Run(w, ops, env).log, key))
       <==> RecognizedRejection(key, fate)
  {
    RefusedPost(row, key, fate);
    if RecognizedRejection(key, fate) {
      var ops := [PublishWhen([], key)];
      ReadingOf([], key, env.bot);
      assert AllEmpty(ops, key, env.bot);
      RetryPosts(w, env, key);
    } else {
      forall ops: seq<Op> | AllEmpty(ops, key, env.bot) ensures Silent(w.log, Run(w, ops, env).log, key) {
        WaitingRowsAreSilent(w, ops, env, key);
      }
    }
  }

  /** The expectation fails on an inline post answered with 400: nothing was created, yet the
      row waits for good while readings show nothing of it. */
  lemma PositionErrorsAreNotRecognized(row: Row, hash: Hex)
    requires CanPost(row, Fingerprint(hash))
    ensures var key, fate := Fingerprint(hash), Http(400);
            ClientError(fate) && !RecognizedRejection(key, fate) && Waiting(PostEffect(row, key, fate, Never).row)
  {
    RefusedPost(row, Fingerprint(hash), Http(400));
  }
}
