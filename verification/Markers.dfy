/** The hidden markers that tell whose message a text is, found as the patterns find them.

    A complete marker opens with `<!-- ai-review:`, holds no `>` and closes with ` -->`; a
    footer runs from `<sub>AI review` to the next `</sub>`. Ownership is read off the first
    owner marker, the key off its exact marker, and a recheck off a mere opening.
 */
module Markers {
  import opened Sequences

  type Hex = s: string | forall c <- s :: IsHex(c)

  type Owner = s: string | s != "" && forall c <- s :: IsToken(c) witness "0"

  const OPENING := "<!-- ai-review:"

  const OWNER := "<!-- ai-review:owner="

  const FINGERPRINT := "<!-- ai-review:fingerprint="

  const SUMMARY := "<!-- ai-review:summary="

  const RECHECK := "<!-- ai-review:recheck="

  const CLOSING := " -->"

  predicate IsHex(c: char) { '0' <= c <= '9' || 'a' <= c <= 'f' }

  predicate IsToken(c: char) { '0' <= c <= '9' || 'a' <= c <= 'z' || 'A' <= c <= 'Z' || c == '-' }

  predicate IsSpace(c: char) {
    || '\t' <= c <= '\r' || '\U{1c}' <= c <= ' ' || c == '\U{85}' || c == '\U{a0}' || c == '\U{1680}'
    || '\U{2000}' <= c <= '\U{200a}' || '\U{2028}' <= c <= '\U{2029}' || c == '\U{202f}' || c == '\U{205f}'
    || c == '\U{3000}'
  }

  predicate At(part: string, text: string, i: nat) { i + |part| <= |text| && text[i..i + |part|] == part }

  predicate Occurs(part: string, text: string) { exists i | 0 <= i <= |text| :: At(part, text, i) }

  // First place of a part; the length when there is none.
  function IndexOfPart(text: string, part: string): (i: nat)
    ensures i <= |text|
  {
    if text == "" || part <= text then 0 else 1 + IndexOfPart(text[1..], part)
  }

  // The length of the complete marker a text starts with, zero when there is none.
  function MarkerLength(text: string): (n: nat)
    ensures n <= |text| && (n > 0 ==> text[n - 1] == '>')
  {
    if !(OPENING <= text) then 0
    else
      var close := |OPENING| + IndexOf(text[|OPENING|..], '>');
      if close < |text| && close - 3 >= |OPENING| && text[close - 3..close] == " --" then close + 1 else 0
  }

  function FooterLength(text: string): (n: nat)
    ensures n <= |text|
  {
    var opening, closing := "<sub>AI review", "</sub>";
    if !(opening <= text) then 0
    else
      var end := |opening| + IndexOfPart(text[|opening|..], closing) + |closing|;
      if end <= |text| then end else 0
  }

  // Leftmost matches that do not overlap.
  function FindAll(length: string -> nat, text: string): seq<string>
    decreases |text|
  {
    if text == "" then []
    else
      var n := length(text);
      if 0 < n <= |text| then [text[..n]] + FindAll(length, text[n..]) else FindAll(length, text[1..])
  }

  function MarkersOf(text: string): seq<string> { FindAll(MarkerLength, text) }

  function FootersOf(text: string): seq<string> { FindAll(FooterLength, text) }

  function Stripped(text: string): string {
    if text == "" then ""
    else if IsSpace(text[0]) then Stripped(text[1..])
    else if IsSpace(text[|text| - 1]) then Stripped(text[..|text| - 1])
    else text
  }

  /** The text an owner's replacement turns a body into: its footers and markers are carried
      over, and a replacement that brings a complete one of its own is refused. */
  function Edited(body: string, replacement: string): Option<string> {
    if MarkersOf(replacement) != [] || FootersOf(replacement) != [] then None
    else Some(JoinWith("\n\n", [Stripped(replacement)] + FootersOf(body) + MarkersOf(body)))
  }

  function TokenLength(text: string): (n: nat)
    ensures n <= |text| && (forall c <- text[..n] :: IsToken(c)) && (n < |text| ==> !IsToken(text[n]))
  {
    if text == "" || !IsToken(text[0]) then 0
    else
      var n := TokenLength(text[1..]);
      assert text[..n + 1] == [text[0]] + text[1..][..n];
      n + 1
  }

  function OwnerAt(text: string): Option<string> {
    if !(OWNER <= text) then None
    else
      var rest := text[|OWNER|..];
      var n := TokenLength(rest);
      if n > 0 && CLOSING <= rest[n..] then Some(rest[..n]) else None
  }

  function FirstOwner(text: string): Option<string> {
    if text == "" then None else if OwnerAt(text).Some? then OwnerAt(text) else FirstOwner(text[1..])
  }

  predicate OwnedBy(owner: Option<Owner>, text: string) {
    match FirstOwner(text)
    case None => owner.None?
    case Some(o) => owner.Some? && o == owner.value
  }

  predicate HoldsFingerprint(text: string) {
    exists i | 0 <= i <= |text| :: At(FINGERPRINT, text, i) && FingerprintDigits(text[i + |FINGERPRINT|..])
  }

  predicate FingerprintDigits(text: string) {
    |text| >= 36 && (forall c <- text[..32] :: IsHex(c)) && CLOSING <= text[32..]
  }

  // ---- Where a part can lie in a text ----------------------------------------------------

  // No part without a break before its last character straddles a break.
  predicate Unbroken(part: string) {
    part != "" && forall k | 0 <= k < |part| :: part[k] != '\n' && (k < |part| - 1 ==> part[k] != '>')
  }

  lemma OccursInside(part: string, before: string, text: string, after: string)
    ensures Occurs(part, text) ==> Occurs(part, before + text + after)
  {
    if Occurs(part, text) {
      var i :| 0 <= i <= |text| && At(part, text, i);
      assert (before + text + after)[|before| + i..|before| + i + |part|] == text[i..i + |part|];
      assert At(part, before + text + after, |before| + i);
    }
  }

  // Between `a` and `b` lies a place no unbroken part extends over.
  predicate Apart(a: string, b: string) {
    a == "" || a[|a| - 1] == '>' || a[|a| - 1] == '\n' || (b != "" && b[0] == '\n')
  }

  lemma OccursSplit(part: string, a: string, b: string)
    requires Unbroken(part) && Apart(a, b)
    ensures Occurs(part, a + b) <==> Occurs(part, a) || Occurs(part, b)
  {
    OccursInside(part, "", a, b);
    OccursInside(part, a, b, "");
    assert "" + a + b == a + b && a + b + "" == a + b;
    if Occurs(part, a + b) {
      var i :| 0 <= i <= |a + b| && At(part, a + b, i);
      if i + |part| <= |a| {
        assert a[i..i + |part|] == (a + b)[i..i + |part|];
        assert At(part, a, i);
      } else if i >= |a| {
        assert b[i - |a|..i - |a| + |part|] == (a + b)[i..i + |part|];
        assert At(part, b, i - |a|);
      } else {
        Straddles(part, a, b, i);
      }
    }
  }

  lemma Straddles(part: string, a: string, b: string, i: nat)
    requires At(part, a + b, i) && i < |a| < i + |part|
    ensures Unbroken(part) ==> !Apart(a, b)
  {
    assert part[|a| - 1 - i] == (a + b)[i..i + |part|][|a| - 1 - i] == a[|a| - 1];
    assert part[|a| - i] == (a + b)[i..i + |part|][|a| - i] == b[0];
  }

  lemma OccursTail(part: string, text: string)
    requires text != "" && !(part <= text)
    ensures Occurs(part, text) <==> Occurs(part, text[1..])
  {
    OccursInside(part, text[..1], text[1..], "");
    assert text[..1] + text[1..] + "" == text;
    if Occurs(part, text) {
      var i :| 0 <= i <= |text| && At(part, text, i);
      assert i != 0;
      assert text[1..][i - 1..i - 1 + |part|] == text[i..i + |part|];
      assert At(part, text[1..], i - 1);
    }
  }

  ghost predicate OccursIn(part: string, parts: seq<string>) { exists p <- parts :: Occurs(part, p) }

  lemma OccursInAppend(part: string, a: seq<string>, b: seq<string>)
    ensures OccursIn(part, a + b) <==> OccursIn(part, a) || OccursIn(part, b)
  {
    forall p | p in a || p in b ensures p in a + b {}
  }

  lemma {:induction false} OccursInJoin(part: string, parts: seq<string>)
    requires Unbroken(part) && parts != []
    ensures Occurs(part, JoinWith("\n\n", parts)) <==> OccursIn(part, parts)
  {
    assert parts == [parts[0]] + parts[1..];
    if |parts| > 1 {
      var rest := JoinWith("\n\n", parts[1..]);
      OccursInJoin(part, parts[1..]);
      Associative(parts[0], "\n\n", rest);
      OccursSplit(part, parts[0], "\n\n" + rest);
      OccursSplit(part, "\n\n", rest);
      NotInGap(part);
    }
  }

  lemma NotInGap(part: string)
    requires Unbroken(part)
    ensures !Occurs(part, "\n\n")
  {
    forall i | 0 <= i <= 2 ensures !At(part, "\n\n", i) {
      if i + |part| <= 2 {
        assert "\n\n"[i..i + |part|][0] == '\n';
      }
    }
  }

  lemma {:induction false} FoundIsInside(length: string -> nat, text: string, part: string)
    ensures OccursIn(part, FindAll(length, text)) ==> Occurs(part, text)
    decreases |text|
  {
    if text != "" {
      var n := length(text);
      if 0 < n <= |text| {
        FoundIsInside(length, text[n..], part);
        OccursInside(part, "", text[..n], text[n..]);
        OccursInside(part, text[..n], text[n..], "");
        assert "" + text[..n] + text[n..] == text && text[..n] + text[n..] + "" == text;
        OccursInAppend(part, [text[..n]], FindAll(length, text[n..]));
      } else {
        FoundIsInside(length, text[1..], part);
        OccursInside(part, text[..1], text[1..], "");
        assert text[..1] + text[1..] + "" == text;
      }
    }
  }

  lemma {:induction false} StrippingKeeps(part: string, text: string)
    requires part != "" && !IsSpace(part[0]) && !IsSpace(part[|part| - 1])
    ensures Occurs(part, Stripped(text)) <==> Occurs(part, text)
    decreases |text|
  {
    if text != "" {
      if IsSpace(text[0]) {
        StrippingKeeps(part, text[1..]);
        OccursTail(part, text);
      } else if IsSpace(text[|text| - 1]) {
        StrippingKeeps(part, text[..|text| - 1]);
        OccursInit(part, text);
      }
    }
  }

  lemma OccursInit(part: string, text: string)
    requires text != "" && part != "" && part[|part| - 1] != text[|text| - 1]
    ensures Occurs(part, text) <==> Occurs(part, text[..|text| - 1])
  {
    var init := text[..|text| - 1];
    OccursInside(part, "", init, text[|text| - 1..]);
    assert "" + init + text[|text| - 1..] == text;
    if Occurs(part, text) {
      var i :| 0 <= i <= |text| && At(part, text, i);
      assert part[|part| - 1] == text[i..i + |part|][|part| - 1] == text[i + |part| - 1];
      assert init[i..i + |part|] == text[i..i + |part|];
      assert At(part, init, i);
    }
  }

  // ---- Complete markers are found -----------------------------------------------------------

  predicate Complete(mark: string) {
    && OPENING <= mark && |mark| >= |OPENING| + |CLOSING| && mark[|mark| - |CLOSING|..] == CLOSING
    && '>' !in mark[..|mark| - 1] && '\n' !in mark
  }

  lemma CompleteIsFound(mark: string, text: string)
    requires Complete(mark) && mark <= text
    ensures MarkerLength(text) == |mark| && Unbroken(mark)
  {
    var rest, close := text[|OPENING|..], IndexOf(text[|OPENING|..], '>');
    var last := |mark| - 1;
    assert mark == text[..|mark|];
    assert OPENING == mark[..|OPENING|] == text[..|OPENING|];
    assert forall k | 0 <= k < last :: mark[k] in mark[..last] && mark[k] != '>';
    assert forall k | 0 <= k < last - |OPENING| :: rest[k] == mark[|OPENING| + k];
    assert mark[last] == mark[|mark| - |CLOSING|..][3] == '>';
    assert rest[last - |OPENING|] == '>';
    forall k | 0 <= k < close ensures rest[k] != '>' {
      assert rest[..close][k] == rest[k];
    }
    assert text[last - 3..last] == mark[last - 3..last] == CLOSING[..3];
  }

  lemma {:induction false} MarkersHoldMark(mark: string, text: string)
    requires Complete(mark)
    ensures Occurs(mark, text) <==> OccursIn(mark, MarkersOf(text))
    decreases |text|
  {
    CompleteIsFound(mark, mark);
    if text == "" {
      assert !At(mark, "", 0);
    } else {
      var n := MarkerLength(text);
      if n > 0 {
        MarkersHoldMark(mark, text[n..]);
        assert text == text[..n] + text[n..];
        OccursSplit(mark, text[..n], text[n..]);
        OccursInAppend(mark, [text[..n]], MarkersOf(text[n..]));
      } else {
        if mark <= text {
          CompleteIsFound(mark, text);
        }
        MarkersHoldMark(mark, text[1..]);
        OccursTail(mark, text);
      }
    }
  }

  // ---- The first owner -------------------------------------------------------------------------

  function OwnerMark(owner: string): string { OWNER + owner + CLOSING }

  function OrElse(a: Option<string>, b: Option<string>): Option<string> { if a.Some? then a else b }

  function FirstOwnerIn(parts: seq<string>): Option<string> {
    if parts == [] then None else OrElse(FirstOwner(parts[0]), FirstOwnerIn(parts[1..]))
  }

  predicate IsOwner(owner: string) { owner != "" && forall c <- owner :: IsToken(c) }

  lemma OwnerMarkIsComplete(owner: string)
    requires IsOwner(owner)
    ensures Complete(OwnerMark(owner)) && Unbroken(OwnerMark(owner))
  {
    var mark := OwnerMark(owner);
    assert OPENING == OWNER[..|OPENING|] == mark[..|OPENING|];
    assert mark[|mark| - |CLOSING|..] == CLOSING;
    forall k | 0 <= k < |mark| ensures mark[k] != '\n' && (k < |mark| - 1 ==> mark[k] != '>') {
      if |OWNER| <= k < |OWNER| + |owner| {
        assert mark[k] == owner[k - |OWNER|] && owner[k - |OWNER|] in owner;
      } else if k < |OWNER| {
        assert mark[k] == OWNER[k];
      } else {
        assert mark[k] == CLOSING[k - |OWNER| - |owner|];
      }
    }
  }

  lemma OwnerAtIs(text: string, owner: string)
    ensures OwnerAt(text) == Some(owner) <==> IsOwner(owner) && OwnerMark(owner) <= text
  {
    if OwnerAt(text) == Some(owner) {
      OwnerAtStarts(text, owner);
    }
    if IsOwner(owner) && OwnerMark(owner) <= text {
      StartsOwnerAt(text, owner);
    }
  }

  lemma OwnerAtStarts(text: string, owner: string)
    requires OwnerAt(text) == Some(owner)
    ensures IsOwner(owner) && OwnerMark(owner) <= text
  {
    var rest := text[|OWNER|..];
    assert owner == rest[..|owner|] && CLOSING == rest[|owner|..][..|CLOSING|];
    assert text[..|OwnerMark(owner)|] == OWNER + rest[..|owner|] + rest[|owner|..][..|CLOSING|];
  }

  lemma StartsOwnerAt(text: string, owner: string)
    requires IsOwner(owner) && OwnerMark(owner) <= text
    ensures OwnerAt(text) == Some(owner)
  {
    var mark := OwnerMark(owner);
    assert mark == text[..|mark|];
    assert OWNER == mark[..|OWNER|] == text[..|OWNER|];
    var rest := text[|OWNER|..];
    assert rest[..|owner|] == mark[|OWNER|..|OWNER| + |owner|] == owner;
    assert rest[|owner|..][..|CLOSING|] == mark[|OWNER| + |owner|..] == CLOSING;
    TokensEnd(rest, owner);
  }

  lemma TokensEnd(text: string, owner: string)
    requires IsOwner(owner) && |owner| < |text| && text[..|owner|] == owner && text[|owner|] == ' '
    ensures TokenLength(text) == |owner|
  {
    var n := TokenLength(text);
    forall k | 0 <= k < |owner| ensures IsToken(text[k]) {
      assert text[k] == text[..|owner|][k] == owner[k] && owner[k] in owner;
    }
    forall k | 0 <= k < n ensures IsToken(text[k]) {
      assert text[..n][k] == text[k];
    }
  }

  lemma {:induction false} OwnerOccurs(text: string)
    ensures FirstOwner(text).Some? ==> var o := FirstOwner(text).value; IsOwner(o) && Occurs(OwnerMark(o), text)
  {
    if text != "" {
      if OwnerAt(text).Some? {
        var o := OwnerAt(text).value;
        OwnerAtIs(text, o);
        assert At(OwnerMark(o), text, 0);
      } else {
        OwnerOccurs(text[1..]);
        if FirstOwner(text[1..]).Some? {
          OccursInside(OwnerMark(FirstOwner(text[1..]).value), text[..1], text[1..], "");
          assert text[..1] + text[1..] + "" == text;
        }
      }
    }
  }

  lemma OwnerAtSplit(a: string, b: string)
    requires a != "" && Apart(a, b)
    ensures OwnerAt(a + b) == OwnerAt(a)
  {
    if OwnerAt(a).Some? {
      OwnerAtIs(a, OwnerAt(a).value);
      OwnerAtIs(a + b, OwnerAt(a).value);
    } else if OwnerAt(a + b).Some? {
      var o := OwnerAt(a + b).value;
      var mark := OwnerMark(o);
      OwnerAtIs(a + b, o);
      OwnerMarkIsComplete(o);
      assert mark == (a + b)[..|mark|];
      if |mark| <= |a| {
        assert a[..|mark|] == mark;
      } else {
        Straddles(mark, a, b, 0);
      }
      OwnerAtIs(a, o);
    }
  }

  lemma {:induction false} OwnerSplit(a: string, b: string)
    requires Apart(a, b)
    ensures FirstOwner(a + b) == OrElse(FirstOwner(a), FirstOwner(b))
  {
    if a == "" {
      assert a + b == b;
    } else {
      OwnerAtSplit(a, b);
      assert (a + b)[1..] == a[1..] + b;
      OwnerSplit(a[1..], b);
    }
  }

  lemma {:induction false} OwnerInAppend(a: seq<string>, b: seq<string>)
    ensures FirstOwnerIn(a + b) == OrElse(FirstOwnerIn(a), FirstOwnerIn(b))
  {
    if a == [] {
      assert a + b == b;
    } else {
      assert (a + b)[1..] == a[1..] + b;
      OwnerInAppend(a[1..], b);
    }
  }

  lemma {:induction false} OwnerOfJoin(parts: seq<string>)
    ensures FirstOwner(JoinWith("\n\n", parts)) == FirstOwnerIn(parts)
  {
    if |parts| == 1 {
      assert FirstOwnerIn(parts[1..]) == None;
    } else if |parts| > 1 {
      var rest := JoinWith("\n\n", parts[1..]);
      OwnerOfJoin(parts[1..]);
      Associative(parts[0], "\n\n", rest);
      OwnerSplit(parts[0], "\n\n" + rest);
      OwnerSplit("\n\n", rest);
      assert "\n\n"[1..] == "\n" && "\n"[1..] == "";
    }
  }

  lemma {:induction false} OwnerOfMarkers(text: string)
    ensures FirstOwnerIn(MarkersOf(text)) == FirstOwner(text)
    decreases |text|
  {
    if text != "" {
      var n := MarkerLength(text);
      if n > 0 {
        OwnerOfMarkers(text[n..]);
        assert text == text[..n] + text[n..];
        OwnerSplit(text[..n], text[n..]);
      } else {
        OwnerOfMarkers(text[1..]);
        if OwnerAt(text).Some? {
          var o := OwnerAt(text).value;
          OwnerAtIs(text, o);
          OwnerMarkIsComplete(o);
          CompleteIsFound(OwnerMark(o), text);
        }
      }
    }
  }

  // ---- What an edit keeps ------------------------------------------------------------------------

  lemma EditedParts(body: string, replacement: string, part: string)
    requires Edited(body, replacement).Some? && Unbroken(part)
    requires !IsSpace(part[0]) && !IsSpace(part[|part| - 1])
    ensures Occurs(part, Edited(body, replacement).value) <==>
            Occurs(part, replacement) || OccursIn(part, FootersOf(body)) || OccursIn(part, MarkersOf(body))
  {
    var carried := FootersOf(body) + MarkersOf(body);
    OccursInJoin(part, [Stripped(replacement)] + FootersOf(body) + MarkersOf(body));
    assert [Stripped(replacement)] + FootersOf(body) + MarkersOf(body) == [Stripped(replacement)] + carried;
    OccursInAppend(part, [Stripped(replacement)], carried);
    OccursInAppend(part, FootersOf(body), MarkersOf(body));
    StrippingKeeps(part, replacement);
    assert OccursIn(part, [Stripped(replacement)]) <==> Occurs(part, Stripped(replacement));
  }

  /** A complete marker is in an edited text exactly when it was in the text before. */
  lemma EditKeepsMarks(body: string, replacement: string, mark: string)
    requires Edited(body, replacement).Some? && Complete(mark)
    ensures Occurs(mark, Edited(body, replacement).value) <==> Occurs(mark, body)
  {
    CompleteIsFound(mark, mark);
    assert mark[0] == OPENING[0] && mark[|mark| - 1] == mark[|mark| - |CLOSING|..][3];
    EditedParts(body, replacement, mark);
    MarkersHoldMark(mark, body);
    MarkersHoldMark(mark, replacement);
    FoundIsInside(FooterLength, body, mark);
  }

  lemma RecheckIsUnbroken()
    ensures Unbroken(RECHECK) && !IsSpace(RECHECK[0]) && !IsSpace(RECHECK[|RECHECK| - 1])
  {
  }

  /** A recheck opening need not be complete, so a replacement may bring one in. */
  lemma EditKeepsRecheck(body: string, replacement: string)
    requires Edited(body, replacement).Some? && !Occurs(RECHECK, body)
    ensures Occurs(RECHECK, Edited(body, replacement).value) <==> Occurs(RECHECK, replacement)
  {
    RecheckIsUnbroken();
    EditedParts(body, replacement, RECHECK);
    FoundIsInside(FooterLength, body, RECHECK);
    FoundIsInside(MarkerLength, body, RECHECK);
  }

  /** Footers are carried over ahead of the markers, so an owner named in one comes first. */
  lemma EditKeepsOwner(body: string, replacement: string)
    requires Edited(body, replacement).Some?
    ensures FirstOwner(Edited(body, replacement).value)
         == OrElse(FirstOwnerIn(FootersOf(body)), FirstOwner(body))
  {
    var carried := FootersOf(body) + MarkersOf(body);
    var stripped := Stripped(replacement);
    OwnerOfJoin([stripped] + FootersOf(body) + MarkersOf(body));
    assert [stripped] + FootersOf(body) + MarkersOf(body) == [stripped] + carried;
    OwnerInAppend(FootersOf(body), MarkersOf(body));
    OwnerOfMarkers(body);
    OwnerOccurs(stripped);
    if FirstOwner(stripped).Some? {
      var mark := OwnerMark(FirstOwner(stripped).value);
      OwnerMarkIsComplete(FirstOwner(stripped).value);
      assert mark[0] == OWNER[0] && mark[|mark| - 1] == CLOSING[3];
      StrippingKeeps(mark, replacement);
      MarkersHoldMark(mark, replacement);
    }
  }
}
