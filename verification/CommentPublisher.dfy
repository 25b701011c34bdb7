/** The publisher object: the rows it tracks in memory over the durable rows.

    Each method is proved to take exactly the step of `Publications` for its kind of message.
 */
module CommentPublisher {
  import opened Sequences
  import opened Comments
  import opened CommentManager
  import opened Publications

  class Publisher {
    const platform: Platform
    const env: Env
    var tracked: map<Key, Row>

    // A publication begins by loading the rows of its review.
    constructor (platform: Platform, env: Env)
      ensures this.platform == platform && this.env == env && tracked == platform.table
    {
      this.platform, this.env := platform, env;
      tracked := platform.table;
    }

    // The tracked row, or a new entry with this body.
    function Current(key: Key, body: string): Row
      reads this
    {
      if key in tracked then tracked[key] else Entry(body, NotPublished, false, None)
    }

    method Remember(key: Key, row: Row)
      modifies this`tracked, platform`table
      ensures tracked == old(tracked)[key := row] && platform.table == old(platform.table)[key := row]
    {
      tracked := tracked[key := row];
      platform.table := platform.table[key := row];
    }

    method Send(key: Key, kind: Kind, fate: Fate)
      modifies platform`log
      ensures platform.log == old(platform.log) + [Call(key, kind, fate)]
    {
      platform.log := platform.log + [Call(key, kind, fate)];
    }

    // One inline comment, in the loop over the selected findings.
    method PublishInline(p: Publication)
      requires p.key.Fingerprint? && tracked == platform.table
      modifies this`tracked, platform
      ensures tracked == platform.table
      ensures platform.World() == AfterPublication(old(platform.World()), p, env)
    {
      assert platform.log + [] == platform.log;
      if p.key in tracked && (tracked[p.key].status.Removed? || tracked[p.key].intent == Some(RemoveIntent)) {
        return;
      }
      if Seen(p, env.bot) || (p.mode.Drafting? && Queued(p, env.bot)) || !Room(p, env) || p.stop.BeforeSaving? {
        return;
      }
      var body := if p.key in tracked && tracked[p.key].body != "" then tracked[p.key].body else p.body;
      Remember(p.key, Current(p.key, body).(positioned := true, file := Some(p.file)));
      if p.mode.Rendered? || p.stop.BeforeSending? {
        return;
      }
      Send(p.key, if p.mode.Drafting? then QueueDraft(body) else Post(body), p.fate);
      if !p.stop.AfterSending? {
        Answer(p, tracked[p.key]);
      }
    }

    // What the forge said of an inline comment; a refused position makes it ineligible.
    method Answer(p: Publication, row: Row)
      requires p.key.Fingerprint? && p.key in tracked && tracked[p.key] == row && tracked == platform.table
      requires !p.mode.Rendered?
      modifies this`tracked, platform`table
      ensures tracked == platform.table == old(platform.table)[p.key := Answered(row, p)]
    {
      match p.fate
      case Done(id, discussionId) =>
        if p.mode.Drafting? {
          Remember(p.key, row.(status := Drafted, draftId := Some(id)));
        } else {
          Remember(p.key,
            row.(status := Committed, discussionId := Some(discussionId), noteId := Some(id), thread := Open));
        }
      case Http(code) =>
        if code == 400 {
          Remember(p.key, row.(eligible := false));
        }
      case Unanswered =>
    }

    // The summary, after the inline comments; its row is saved even when nothing is sent.
    method PublishSummary(p: Publication)
      requires p.key.Summary? && tracked == platform.table
      modifies this`tracked, platform
      ensures tracked == platform.table
      ensures platform.World() == AfterPublication(old(platform.World()), p, env)
    {
      assert platform.log + [] == platform.log;
      if p.stop.BeforeSaving? {
        return;
      }
      var withheld := Withheld(if p.key in tracked then Some(tracked[p.key]) else None);
      var body := if p.key in tracked && tracked[p.key].body != "" then tracked[p.key].body else p.body;
      Remember(p.key, Current(p.key, body));
      if withheld || p.mode.Rendered? || p.stop.BeforeSending? {
        return;
      }
      if (p.mode.Drafting? && Queued(p, env.bot)) || (p.mode.Applied? && Seen(p, env.bot)) {
        return;
      }
      Send(p.key, if p.mode.Drafting? then QueueDraft(body) else Post(body), p.fate);
      if p.stop.AfterSending? || !p.fate.Done? {
        return;
      }
      if p.mode.Drafting? {
        Remember(p.key, Current(p.key, body).(status := Drafted, draftId := Some(p.fate.noteId)));
      } else {
        Remember(p.key, Current(p.key, body).(status := Committed, noteId := Some(p.fate.noteId)));
      }
    }
  }
}
