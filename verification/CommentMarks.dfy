/** The marks of this review's own messages, and a plain text that carries them. */
module CommentMarks {
  import opened Sequences
  import opened Markers
  import opened Comments

  // How the marks of summaries and findings open.
  predicate OpensMark(opening: string) {
    && |opening| > 15 && OPENING == opening[..15] && opening[0] == '<'
    && opening[15] != 'r' && opening[15] != 'o'
    && forall k | 0 < k < |opening| :: opening[k] != '<' && opening[k] != '>' && opening[k] != '\n'
  }

  lemma SummaryOpens()
    ensures OpensMark(SUMMARY)
  {
  }

  lemma FingerprintOpens()
    ensures OpensMark(FINGERPRINT)
  {
  }

  lemma KeysOpenMarks(key: Key)
    ensures OpensMark(MarkOpening(key))
  {
    if key.Summary? {
      SummaryOpens();
    } else {
      FingerprintOpens();
    }
  }

  lemma MarkCharacters(opening: string, hash: Hex, k: nat)
    requires OpensMark(opening) && 0 < k < |opening + hash + CLOSING|
    ensures var c := (opening + hash + CLOSING)[k];
            c != '<' && c != '\n' && (k < |opening + hash + CLOSING| - 1 ==> c != '>')
  {
    if |opening| <= k < |opening| + |hash| {
      assert hash[k - |opening|] in hash;
    }
  }

  lemma MarkIsWhole(opening: string, hash: Hex)
    requires OpensMark(opening)
    ensures var mark := opening + hash + CLOSING; Complete(mark) && Unbroken(mark) && OpensOnce(mark)
  {
    var mark := opening + hash + CLOSING;
    assert mark[..15] == opening[..15];
    assert mark[|mark| - |CLOSING|..] == CLOSING;
    forall k | 0 < k < |mark|
      ensures mark[k] != '<' && mark[k] != '\n' && (k < |mark| - 1 ==> mark[k] != '>')
    {
      MarkCharacters(opening, hash, k);
    }
    CompleteIsFound(mark, mark);
  }

  lemma MarkIsComplete(key: Key, bot: Bot)
    ensures Complete(Mark(key, bot)) && Unbroken(Mark(key, bot))
  {
    KeysOpenMarks(key);
    MarkIsWhole(MarkOpening(key), MarkValue(key, bot));
  }

  // A text whose only `<` opens it holds nothing else that starts with one.
  predicate OpensOnce(text: string) { text != "" && text[0] == '<' && forall k | 0 < k < |text| :: text[k] != '<' }

  lemma OpenedOtherwise(text: string, part: string)
    requires OpensOnce(text) && |part| > 15 && part[0] == '<' && (|text| <= 15 || text[15] != part[15])
    ensures !Occurs(part, text)
  {
    forall i | 0 <= i <= |text| ensures !At(part, text, i) {
      if i + |part| <= |text| {
        assert text[i..i + |part|][0] == text[i] && text[i..i + |part|][15] == text[i + 15];
      }
    }
  }

  lemma NoOwnerInside(text: string)
    requires OpensOnce(text) && |text| > 15 && text[15] != 'o'
    ensures FirstOwner(text) == None
  {
    OwnerOccurs(text);
    if FirstOwner(text).Some? {
      var mark := OwnerMark(FirstOwner(text).value);
      assert mark[0] == OWNER[0] && mark[15] == OWNER[15];
      OpenedOtherwise(text, mark);
    }
  }

  // A complete marker of neither an owner nor a recheck.
  predicate Plain(mark: string) {
    Complete(mark) && Unbroken(mark) && !Occurs(RECHECK, mark) && FirstOwner(mark) == None
  }

  lemma MarkIsPlain(opening: string, hash: Hex)
    requires OpensMark(opening)
    ensures Plain(opening + hash + CLOSING)
  {
    var mark := opening + hash + CLOSING;
    MarkIsWhole(opening, hash);
    assert mark[15] == opening[15];
    OpenedOtherwise(mark, RECHECK);
    NoOwnerInside(mark);
  }

  lemma OwnerMarkOpensOnce(owner: Owner)
    ensures OpensOnce(OwnerMark(owner)) && |OwnerMark(owner)| > 15 && OwnerMark(owner)[15] == 'o'
  {
    var mark := OwnerMark(owner);
    forall k | 0 < k < |mark| ensures mark[k] != '<' {
      if |OWNER| <= k < |OWNER| + |owner| {
        assert owner[k - |OWNER|] in owner;
      }
    }
  }

  lemma OwnerMarkOpens(owner: Owner)
    ensures !Occurs(RECHECK, OwnerMark(owner)) && FirstOwner(OwnerMark(owner)) == Some(owner)
  {
    OwnerMarkOpensOnce(owner);
    OpenedOtherwise(OwnerMark(owner), RECHECK);
    OwnerAtIs(OwnerMark(owner), owner);
  }

  lemma EndsClosed(mark: string, more: string)
    requires Complete(mark)
    ensures Apart(mark, more)
  {
    assert mark[|mark| - |CLOSING|..][3] == '>' == mark[|mark| - 1];
  }

  lemma FirstHolds(mark: string, more: string)
    ensures Occurs(mark, mark + more)
  {
    assert At(mark, mark + more, 0);
  }

  lemma SignedMark(mark: string, signature: string, part: string)
    requires Apart(mark, signature) && FirstOwner(mark) == None
    requires Unbroken(part) && !Occurs(part, mark) && !Occurs(part, signature)
    ensures FirstOwner(mark + signature) == FirstOwner(signature)
    ensures Occurs(mark, mark + signature) && !Occurs(part, mark + signature)
  {
    OwnerSplit(mark, signature);
    FirstHolds(mark, signature);
    OccursSplit(part, mark, signature);
  }

  function OwnText(key: Key, bot: Bot): string {
    Mark(key, bot) + match bot.owner case None => "" case Some(owner) => OwnerMark(owner)
  }

  /** Whatever the key, the owner and the head, some text is this review's own message. */
  lemma OwnTextIsOwn(key: Key, bot: Bot)
    ensures OwnedBy(bot.owner, OwnText(key, bot)) && Occurs(Mark(key, bot), OwnText(key, bot))
    ensures !Occurs(RECHECK, OwnText(key, bot)) && OwnText(key, bot) != ""
  {
    KeysOpenMarks(key);
    MarkIsPlain(MarkOpening(key), MarkValue(key, bot));
    OwnTextOf(Mark(key, bot), bot.owner);
  }

  lemma OwnTextOf(mark: string, owner: Option<Owner>)
    requires Plain(mark)
    ensures var text := mark + match owner case None => "" case Some(o) => OwnerMark(o);
            OwnedBy(owner, text) && Occurs(mark, text) && !Occurs(RECHECK, text) && text != ""
  {
    match owner
    case None =>
      assert At(mark, mark, 0);
      assert mark + "" == mark;
    case Some(o) =>
      OwnerMarkOpens(o);
      EndsClosed(mark, OwnerMark(o));
      RecheckIsUnbroken();
      SignedMark(mark, OwnerMark(o), RECHECK);
  }

  // ---- The text carries no other key's mark ------------------------------------------------------

  lemma OccursAtStart(part: string, text: string)
    requires OpensOnce(text) && part != "" && part[0] == '<' && Occurs(part, text)
    ensures part <= text
  {
    var i :| 0 <= i <= |text| && At(part, text, i);
    assert text[i..i + |part|][0] == text[i];
  }

  lemma CompleteIsAll(mark: string, text: string)
    requires Complete(mark) && Complete(text) && mark <= text
    ensures mark == text
  {
    assert mark[|mark| - |CLOSING|..][3] == '>' == mark[|mark| - 1] == text[|mark| - 1];
    forall k | 0 <= k < |text| - 1 ensures text[k] != '>' {
      assert text[..|text| - 1][k] == text[k];
    }
  }

  lemma SameMark(key: Key, other: Key, bot: Bot)
    requires Mark(key, bot) == Mark(other, bot)
    ensures key == other
  {
    var mark, opening := Mark(key, bot), MarkOpening(key);
    assert mark[15] == MarkOpening(key)[15] == MarkOpening(other)[15];
    if key.Fingerprint? && other.Fingerprint? {
      assert mark[|opening|..|mark| - |CLOSING|] == key.hash;
      assert mark[|opening|..|mark| - |CLOSING|] == other.hash;
    }
  }

  lemma MarkInMark(key: Key, other: Key, bot: Bot)
    requires Occurs(Mark(other, bot), Mark(key, bot))
    ensures other == key
  {
    KeysOpenMarks(key);
    KeysOpenMarks(other);
    MarkIsWhole(MarkOpening(key), MarkValue(key, bot));
    MarkIsWhole(MarkOpening(other), MarkValue(other, bot));
    OccursAtStart(Mark(other, bot), Mark(key, bot));
    CompleteIsAll(Mark(other, bot), Mark(key, bot));
    SameMark(key, other, bot);
  }

  lemma MarkInOwner(key: Key, bot: Bot, owner: Owner)
    ensures !Occurs(Mark(key, bot), OwnerMark(owner))
  {
    KeysOpenMarks(key);
    OwnerMarkOpensOnce(owner);
    assert Mark(key, bot)[0] == MarkOpening(key)[0] && Mark(key, bot)[15] == MarkOpening(key)[15];
    OpenedOtherwise(OwnerMark(owner), Mark(key, bot));
  }

  /** Such a text is the message of that key alone. */
  lemma OwnTextIsSole(key: Key, other: Key, bot: Bot)
    requires Occurs(Mark(other, bot), OwnText(key, bot))
    ensures other == key
  {
    MarkIsComplete(key, bot);
    MarkIsComplete(other, bot);
    match bot.owner
    case None =>
      assert OwnText(key, bot) == Mark(key, bot);
      MarkInMark(key, other, bot);
    case Some(owner) =>
      EndsClosed(Mark(key, bot), OwnerMark(owner));
      OccursSplit(Mark(other, bot), Mark(key, bot), OwnerMark(owner));
      MarkInOwner(other, bot, owner);
      MarkInMark(key, other, bot);
  }
}
