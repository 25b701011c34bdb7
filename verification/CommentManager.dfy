/** The manager object itself: rows in memory over durable rows, mutated call by call.

    `Platform` is what survives the process: the stored rows and the remote mutations
    attempted. Each method is proved to take exactly the step of `CommentProtocol.Next`.
 */
module CommentManager {
  import opened Sequences
  import opened Comments
  import opened Markers
  import P = CommentProtocol

  class Platform {
    var table: map<Key, Row>
    var log: seq<Call>

    constructor (table: map<Key, Row>)
      ensures World() == P.World(table, [])
    {
      this.table := table;
      log := [];
    }

    ghost function World(): P.World
      reads this
    {
      P.World(table, log)
    }
  }

  class Manager {
    const platform: Platform
    const env: Env
    const source: P.Source
    var rows: map<Key, Row>
    var view: View

    constructor (platform: Platform, env: Env, source: P.Source)
      ensures this.platform == platform && this.env == env && this.source == source
    {
      this.platform, this.env, this.source := platform, env, source;
      rows, view := map[], View([], []);
    }

    method Save(key: Key, row: Row)
      modifies this`rows, platform`table
      ensures rows == old(rows)[key := row] && platform.table == old(platform.table)[key := row]
    {
      rows := rows[key := row];
      platform.table := platform.table[key := row];
    }

    // Records a remote mutation; how it ended is `fate`.
    method Send(key: Key, kind: Kind, fate: Fate)
      modifies platform`log
      ensures platform.log == old(platform.log) + [Call(key, kind, fate)]
    {
      platform.log := platform.log + [Call(key, kind, fate)];
    }

    // Tracks the first `count` messages the stored report and findings name.
    method Seed(count: nat)
      requires count <= |Seeds(source.report, source.findings)|
      modifies this`rows, platform`table
      ensures rows == platform.table
      ensures platform.table == Seeded(old(platform.table), Seeds(source.report, source.findings)[..count])
    {
      var seeds := Seeds(source.report, source.findings)[..count];
      rows := platform.table;
      var i := 0;
      assert seeds[0..] == seeds;
      while i < count
        invariant 0 <= i <= count
        invariant rows == platform.table
        invariant Seeded(platform.table, seeds[i..]) == Seeded(old(platform.table), seeds)
      {
        var (key, row) := seeds[i];
        assert seeds[i..][1..] == seeds[i + 1..];
        if key !in rows {
          Save(key, row);
        }
        i := i + 1;
      }
    }

    method Sync(view: View, crash: Crash) returns (outcome: Outcome)
      modifies this`rows, this`view, platform`table
      ensures platform.World() == P.Next(old(platform.World()), P.Sync(source, view, crash), env)
      ensures crash.DuringSync? <==> outcome.Died?
      ensures !crash.DuringSync? ==> rows == platform.table && this.view == view
    {
      var seeds := Seeds(source.report, source.findings);
      if crash.DuringSync? {
        Seed(Min(crash.stored, |seeds|));
        return Died;
      }
      assert seeds[..|seeds|] == seeds;
      Seed(|seeds|);
      this.view := view;
      ghost var tracked := rows;
      var todo := rows.Keys;
      while todo != {}
        invariant this.view == view && todo <= rows.Keys == tracked.Keys
        invariant forall key <- tracked ::
                    rows[key] == if key in todo then tracked[key] else SyncRow(tracked[key], key, view, env.bot)
        decreases todo
      {
        var key :| key in todo;
        rows := rows[key := SyncRow(rows[key], key, view, env.bot)];
        todo := todo - {key};
      }
      platform.table := rows;
      assert rows == SyncTable(tracked, view, env.bot);
      return Succeeded;
    }

    method Act(key: Key, request: Request, view: View, fate: Fate, crash: Crash) returns (outcome: Outcome)
      modifies this`rows, this`view, platform
      ensures platform.World()
           == P.Next(old(platform.World()), P.Act(source, view, crash, key, request, fate), env)
    {
      outcome := Sync(view, crash);
      if crash.DuringSync? {
        return Died;
      }
      if key !in rows {
        return Refused;
      }
      var row := rows[key];
      assert platform.table[key := row] == platform.table && platform.log + [] == platform.log;
      if crash.AfterSync? {
        return Died;
      }
      if row.conflict.Some? || (request.expected.Some? && request.expected.value != row.body) {
        return Refused;
      }
      if row.intent == Some(RemoveIntent) && !request.action.Remove? {
        return Refused;
      }
      match request.action
      case Resolve => outcome := ActResolve(key, row, fate, crash);
      case Edit(_) => outcome := ActEdit(key, row, request.action, fate, crash);
      case Remove => outcome := ActRemove(key, row, fate, crash);
      case Publish => outcome := ActPublish(key, row, fate, crash);
      case Unknown => outcome := Refused;
    }

    // `effect` is what an action decided for the stored `row`.
    twostate predicate Applied(key: Key, effect: Effect, outcome: Outcome)
      reads this, platform
    {
      && platform.table == old(platform.table)[key := effect.row]
      && platform.log == old(platform.log) + effect.calls
      && outcome == effect.outcome
    }

    method ActResolve(key: Key, row: Row, fate: Fate, crash: Crash) returns (outcome: Outcome)
      requires key in platform.table && platform.table[key] == row
      modifies this`rows, platform
      ensures Applied(key, ResolveEffect(row, key, fate, crash), outcome)
    {
      assert platform.table[key := row] == platform.table && platform.log + [] == platform.log;
      if !row.status.Committed? || !row.thread.Open? {
        return Skipped;
      }
      if crash.AfterIntent? {
        return Died;
      }
      Send(key, ResolveThread(row.discussionId), fate);
      if crash.AfterCall? {
        return Died;
      }
      if !fate.Done? {
        return Raised;
      }
      Save(key, Completed(row.(thread := Resolved), Resolve));
      return Succeeded;
    }

    method ActEdit(key: Key, row: Row, action: Action, fate: Fate, crash: Crash) returns (outcome: Outcome)
      requires action.Edit? && key in platform.table && platform.table[key] == row
      modifies this`rows, platform
      ensures Applied(key, EditEffect(row, key, action, fate, crash), outcome)
    {
      assert platform.table[key := row] == platform.table && platform.log + [] == platform.log;
      if !row.status.Drafted? && !row.status.Committed? {
        return Refused;
      }
      var body := Edited(row.body, action.message);
      if body.None? {
        return Refused;
      }
      if crash.AfterIntent? {
        return Died;
      }
      if row.status.Drafted? {
        Send(key, EditDraft(row.draftId, body.value), fate);
      } else {
        Send(key, EditNote(row.noteId, body.value), fate);
      }
      if crash.AfterCall? {
        return Died;
      }
      if !fate.Done? {
        return Raised;
      }
      Save(key, Completed(row.(body := body.value), action));
      return Succeeded;
    }

    method ActRemove(key: Key, row: Row, fate: Fate, crash: Crash) returns (outcome: Outcome)
      requires key in platform.table && platform.table[key] == row
      modifies this`rows, platform
      ensures Applied(key, RemoveEffect(row, key, fate, crash), outcome)
    {
      assert platform.table[key := row] == platform.table && platform.log + [] == platform.log;
      if row.status.Removed? {
        return Skipped;
      }
      if row.status.NotPublished? {
        return Refused;
      }
      var pinned := row.(intent := Some(RemoveIntent), removedByOwner := true);
      Save(key, pinned);
      if crash.AfterIntent? {
        return Died;
      }
      if row.status.Drafted? {
        Send(key, DeleteDraft(row.draftId), fate);
      } else {
        Send(key, DeleteNote(row.noteId), fate);
      }
      if crash.AfterCall? {
        return Died;
      }
      if !fate.Done? {
        return Raised;
      }
      Save(key, Completed(pinned.(status := Removed, thread := NotApplicable), Remove));
      return Succeeded;
    }

    method ActPublish(key: Key, row: Row, fate: Fate, crash: Crash) returns (outcome: Outcome)
      requires key in platform.table && platform.table[key] == row
      requires !crash.DuringSync? && !crash.AfterSync?
      modifies this`rows, platform
      ensures Applied(key, PublishEffect(row, key, view, env, fate, crash), outcome)
    {
      assert platform.table[key := row] == platform.table && platform.log + [] == platform.log;
      if row.status.Committed? || row.status.Removed? || !Sendable(row, key) {
        return Skipped;
      }
      if key.Fingerprint? && OverLimit(row, view, env) {
        return Refused;
      }
      if !row.status.Drafted? {
        outcome := ActPost(key, row, fate, crash);
        return;
      }
      if crash.AfterIntent? {
        return Died;
      }
      Send(key, PublishDraft(row.draftId), fate);
      if crash.AfterCall? {
        return Died;
      }
      if !fate.Done? {
        return Raised;
      }
      Save(key, Completed(row.(status := Committed), Publish));
      return Succeeded;
    }

    // Pins the row before the post: an unanswered post is never repeated.
    method ActPost(key: Key, row: Row, fate: Fate, crash: Crash) returns (outcome: Outcome)
      requires key in platform.table && platform.table[key] == row
      requires !crash.DuringSync? && !crash.AfterSync?
      modifies this`rows, platform
      ensures Applied(key, PostEffect(row, key, fate, crash), outcome)
    {
      var current := row.(intent := Some(PublishIntent));
      Save(key, current);
      if crash.AfterIntent? {
        assert platform.log + [] == platform.log;
        return Died;
      }
      Send(key, Post(row.body), fate);
      if crash.AfterCall? {
        return Died;
      }
      match fate
      case Done(noteId, discussionId) =>
        current := current.(noteId := Some(noteId));
        if key.Fingerprint? {
          current := current.(discussionId := Some(discussionId));
        }
        Save(key, Completed(current.(status := Committed), Publish));
        return Succeeded;
      case Http(code) =>
        if RecognizedRejection(key, fate) {
          Save(key, current.(intent := None));
        }
        return Raised;
      case Unanswered =>
        return Raised;
    }
  }
}
