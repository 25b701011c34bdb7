/** Server-sent events: printed frames and the incremental parser that reads them back. */
module Sse {
  import opened Sequences

  datatype Message = Message(event: string, id: Option<string>, data: string)

  // The fields of the frame under way, then the messages so far.
  datatype Fields = Fields(event: string, data: seq<string>, id: Option<string>, out: seq<Message>)

  // With the text of a line not yet complete.
  datatype Parse = Parse(buffer: string, fields: Fields)

  const START := Parse("", Fields("message", [], None, []))

  function Chomp(line: string): string {
    if line != "" && line[|line| - 1] == '\r' then line[..|line| - 1] else line
  }

  function Field(line: string): string { line[..IndexOf(line, ':')] }

  // What follows the colon, less one leading space.
  function Text(line: string): string {
    var colon := IndexOf(line, ':');
    if colon == |line| then ""
    else
      var rest := line[colon + 1..];
      if rest != "" && rest[0] == ' ' then rest[1..] else rest
  }

  function Dispatched(f: Fields): Fields {
    Fields("message", [], None,
      if f.data == [] then f.out else f.out + [Message(f.event, f.id, JoinWith("\n", f.data))])
  }

  function Took(f: Fields, raw: string): Fields {
    var line := Chomp(raw);
    if line == "" then Dispatched(f)
    else if line[0] == ':' then f
    else
      var field, text := Field(line), Text(line);
      if field == "event" then f.(event := text)
      else if field == "data" then f.(data := f.data + [text])
      else if field == "id" then f.(id := Some(text))
      else f
  }

  // Take every complete line off the text.
  function Drained(f: Fields, text: string): Parse
    decreases |text|
  {
    var end := IndexOf(text, '\n');
    if end == |text| then Parse(text, f) else Drained(Took(f, text[..end]), text[end + 1..])
  }

  function Fed(p: Parse, chunk: string): Parse { Drained(p.fields, p.buffer + chunk) }

  function FedAll(p: Parse, chunks: seq<string>): Parse
    decreases chunks
  {
    if chunks == [] then p else FedAll(Fed(p, chunks[0]), chunks[1..])
  }

  lemma DrainedLine(f: Fields, text: string)
    ensures var end := IndexOf(text, '\n');
            Drained(f, text) == if end == |text| then Parse(text, f) else Drained(Took(f, text[..end]), text[end + 1..])
  {
  }

  class Parser {
    var buffer: string
    var event: string
    var data: seq<string>
    var id: Option<string>
    var out: seq<Message>

    ghost function State(): Parse
      reads this
    {
      Parse(buffer, Fields(event, data, id, out))
    }

    constructor ()
      ensures State() == START
    {
      buffer, event, data, id, out := "", "message", [], None, [];
    }

    method Take(raw: string)
      modifies this`event, this`data, this`id, this`out
      ensures State().fields == Took(old(State()).fields, raw)
    {
      var line := if raw != "" && raw[|raw| - 1] == '\r' then raw[..|raw| - 1] else raw;
      if line == "" {
        if data != [] {
          out := out + [Message(event, id, JoinWith("\n", data))];
        }
        event, data, id := "message", [], None;
      } else if line[0] != ':' {
        var field, text := Field(line), Text(line);
        if field == "event" {
          event := text;
        } else if field == "data" {
          data := data + [text];
        } else if field == "id" {
          id := Some(text);
        }
      }
    }

    method Feed(chunk: string)
      modifies this
      ensures State() == Fed(old(State()), chunk)
    {
      ghost var goal := Fed(State(), chunk);
      buffer := buffer + chunk;
      var end := IndexOf(buffer, '\n');
      while end < |buffer|
        invariant end == IndexOf(buffer, '\n')
        invariant Drained(State().fields, buffer) == goal
        decreases |buffer|
      {
        DrainedLine(State().fields, buffer);
        Take(buffer[..end]);
        buffer := buffer[end + 1..];
        end := IndexOf(buffer, '\n');
      }
    }
  }

  // ---- Chunks do not matter -------------------------------------------------------------

  lemma {:induction false} IndexOfAppend(a: string, b: string, c: char)
    ensures IndexOf(a + b, c) == if IndexOf(a, c) < |a| then IndexOf(a, c) else |a| + IndexOf(b, c)
  {
    if a == "" {
      assert a + b == b;
    } else {
      assert (a + b)[1..] == a[1..] + b;
      IndexOfAppend(a[1..], b, c);
    }
  }

  lemma {:induction false} DrainedLater(f: Fields, text: string, more: string)
    ensures Fed(Drained(f, text), more) == Drained(f, text + more)
    decreases |text|
  {
    var end := IndexOf(text, '\n');
    if end < |text| {
      IndexOfAppend(text, more, '\n');
      assert (text + more)[..end] == text[..end];
      assert (text + more)[end + 1..] == text[end + 1..] + more;
      DrainedLater(Took(f, text[..end]), text[end + 1..], more);
    }
  }

  /** Feeding a text in any chunks is feeding it whole, as long as nothing fed before is
      still waiting to be taken. */
  lemma {:induction false} ChunksDoNotMatter(f: Fields, text: string, chunks: seq<string>)
    ensures FedAll(Drained(f, text), chunks) == Drained(f, text + Flatten(chunks))
    decreases chunks
  {
    if chunks == [] {
      assert text + "" == text;
    } else {
      DrainedLater(f, text, chunks[0]);
      ChunksDoNotMatter(f, text + chunks[0], chunks[1..]);
      var rest := Flatten(chunks[1..]);
      assert Flatten(chunks) == chunks[0] + rest;
      Associative(text, chunks[0], rest);
    }
  }

  // ---- Printing and reading back -----------------------------------------------------------

  datatype Printed = Retry | Heartbeat | Frame(event: string, data: string, sequence: Option<nat>)

  function Labelled(name: string, value: string): string { name + ": " + value }

  // The lines of a printed item; each is ended by a newline and an empty line follows.
  function Lines(item: Printed): seq<string> {
    match item
    case Retry => [Labelled("retry", "2000"), ""]
    case Heartbeat => [": heartbeat", ""]
    case Frame(event, data, None) => [Labelled("event", event), Labelled("data", data), ""]
    case Frame(event, data, Some(n)) =>
      [Labelled("id", Digits(n)), Labelled("event", event), Labelled("data", data), ""]
  }

  function Ended(lines: seq<string>): string {
    if lines == [] then "" else lines[0] + "\n" + Ended(lines[1..])
  }

  function Print(items: seq<Printed>): string {
    if items == [] then "" else Ended(Lines(items[0])) + Print(items[1..])
  }

  // Event names and serialized data hold no line break.
  predicate OneLine(s: string) { forall c <- s :: c != '\n' && c != '\r' }

  predicate Printable(item: Printed) { item.Frame? ==> OneLine(item.event) && OneLine(item.data) }

  function Messages(items: seq<Printed>): seq<Message> {
    if items == [] then []
    else if items[0].Frame? then [MessageOf(items[0])] + Messages(items[1..])
    else Messages(items[1..])
  }

  function MessageOf(item: Printed): Message
    requires item.Frame?
  {
    Message(item.event, if item.sequence.Some? then Some(Digits(item.sequence.value)) else None, item.data)
  }

  lemma DigitsAreOneLine(n: nat)
    ensures OneLine(Digits(n))
  {
    DigitsReadBack(n);
  }

  function TookAll(f: Fields, lines: seq<string>): Fields
    decreases lines
  {
    if lines == [] then f else TookAll(Took(f, lines[0]), lines[1..])
  }

  lemma NoneFound(s: string, c: char)
    ensures c !in s ==> IndexOf(s, c) == |s|
  {
  }

  lemma {:induction false} DrainedLines(f: Fields, lines: seq<string>, text: string)
    requires forall l <- lines :: '\n' !in l
    ensures Drained(f, Ended(lines) + text) == Drained(TookAll(f, lines), text)
    decreases lines
  {
    if lines == [] {
      assert Ended(lines) + text == text;
    } else {
      var line, rest := lines[0], Ended(lines[1..]) + text;
      assert Ended(lines) + text == line + ("\n" + rest);
      FirstLine(f, line, rest);
      DrainedLines(Took(f, line), lines[1..], text);
    }
  }

  lemma FirstLine(f: Fields, line: string, rest: string)
    requires '\n' !in line
    ensures Drained(f, line + ("\n" + rest)) == Drained(Took(f, line), rest)
  {
    var all := line + ("\n" + rest);
    NoneFound(line, '\n');
    IndexOfAppend(line, "\n" + rest, '\n');
    assert all[..|line|] == line && all[|line| + 1..] == rest;
  }

  lemma FieldLine(name: string, value: string)
    requires name != "" && ':' !in name && OneLine(value) && OneLine(name)
    ensures var line := name + ": " + value;
            line == Labelled(name, value) && Chomp(line) == line && line[0] != ':' && Field(line) == name
              && Text(line) == value && '\n' !in line
  {
    FieldSplits(name, value);
    FieldEnds(name, value);
  }

  lemma FieldSplits(name: string, value: string)
    requires name != "" && ':' !in name
    ensures var line := name + ": " + value; line[0] != ':' && Field(line) == name && Text(line) == value
  {
    var line := name + ": " + value;
    NoneFound(name, ':');
    assert line == name + (": " + value);
    IndexOfAppend(name, ": " + value, ':');
    assert line[..|name|] == name && line[|name| + 1..] == " " + value && (" " + value)[1..] == value;
  }

  lemma FieldEnds(name: string, value: string)
    requires OneLine(value) && OneLine(name)
    ensures var line := name + ": " + value; Chomp(line) == line && '\n' !in line
  {
    var line := name + ": " + value;
    assert line[|line| - 1] == if value == "" then ' ' else value[|value| - 1];
    assert value != "" ==> value[|value| - 1] in value;
    forall c | c in line ensures c != '\n' {
      assert c in name || c == ':' || c == ' ' || c in value;
    }
  }

  lemma IdTaken(f: Fields, value: string)
    requires OneLine(value)
    ensures Took(f, Labelled("id", value)) == f.(id := Some(value)) && '\n' !in Labelled("id", value)
  {
    FieldLine("id", value);
  }

  lemma EventTaken(f: Fields, value: string)
    requires OneLine(value)
    ensures Took(f, Labelled("event", value)) == f.(event := value) && '\n' !in Labelled("event", value)
  {
    FieldLine("event", value);
  }

  lemma DataTaken(f: Fields, value: string)
    requires OneLine(value)
    ensures Took(f, Labelled("data", value)) == f.(data := f.data + [value]) && '\n' !in Labelled("data", value)
  {
    FieldLine("data", value);
  }

  lemma RetryTaken(f: Fields)
    ensures Took(f, Labelled("retry", "2000")) == f && '\n' !in Labelled("retry", "2000")
  {
    FieldLine("retry", "2000");
  }

  // Between items nothing is pending.
  predicate Clean(f: Fields) { f.event == "message" && f.data == [] && f.id == None }

  lemma BodyIsTaken(f: Fields, event: string, data: string)
    requires f.data == [] && OneLine(event) && OneLine(data)
    ensures TookAll(f, [Labelled("event", event), Labelled("data", data), ""])
         == Fields("message", [], None, f.out + [Message(event, f.id, data)])
  {
    EventTaken(f, event);
    DataTaken(f.(event := event), data);
    ThreeLines(f, Labelled("event", event), Labelled("data", data));
    assert f.data + [data] == [data];
  }

  lemma FrameIsTaken(f: Fields, item: Printed)
    requires Clean(f) && item.Frame? && Printable(item)
    ensures TookAll(f, Lines(item)) == f.(out := f.out + [MessageOf(item)])
  {
    if item.sequence.Some? {
      var digits := Digits(item.sequence.value);
      DigitsAreOneLine(item.sequence.value);
      IdTaken(f, digits);
      BodyIsTaken(f.(id := Some(digits)), item.event, item.data);
      assert Lines(item)[1..] == [Labelled("event", item.event), Labelled("data", item.data), ""];
    } else {
      BodyIsTaken(f, item.event, item.data);
    }
  }

  lemma OtherIsTaken(f: Fields, item: Printed)
    requires Clean(f) && !item.Frame?
    ensures TookAll(f, Lines(item)) == f
  {
    if item.Retry? {
      RetryTaken(f);
      TwoLines(f, Labelled("retry", "2000"));
    } else {
      TwoLines(f, ": heartbeat");
    }
  }

  lemma ItemHasLines(f: Fields, item: Printed)
    requires Printable(item)
    ensures forall l <- Lines(item) :: '\n' !in l
  {
    if item.Frame? {
      EventTaken(f, item.event);
      DataTaken(f, item.data);
      if item.sequence.Some? {
        DigitsAreOneLine(item.sequence.value);
        IdTaken(f, Digits(item.sequence.value));
      }
    } else {
      RetryTaken(f);
    }
  }

  lemma TwoLines(f: Fields, line: string)
    ensures TookAll(f, [line, ""]) == Dispatched(Took(f, line))
  {
    assert [line, ""][1..] == [""] && [""][1..] == [];
  }

  lemma ThreeLines(f: Fields, first: string, second: string)
    ensures TookAll(f, [first, second, ""]) == Dispatched(Took(Took(f, first), second))
  {
    assert [first, second, ""][1..] == [second, ""];
    TwoLines(Took(f, first), second);
  }

  lemma {:induction false} ItemsAreTaken(f: Fields, items: seq<Printed>)
    requires Clean(f) && forall item <- items :: Printable(item)
    ensures Drained(f, Print(items)) == Parse("", f.(out := f.out + Messages(items)))
    decreases items
  {
    if items == [] {
      assert f.out + [] == f.out;
    } else {
      var rest := Messages(items[1..]);
      DrainedItem(f, items[0], Print(items[1..]));
      if items[0].Frame? {
        ItemsAreTaken(f.(out := f.out + [MessageOf(items[0])]), items[1..]);
        Associative(f.out, [MessageOf(items[0])], rest);
      } else {
        ItemsAreTaken(f, items[1..]);
      }
    }
  }

  lemma DrainedItem(f: Fields, item: Printed, text: string)
    requires Clean(f) && Printable(item)
    ensures Drained(f, Ended(Lines(item)) + text)
         == Drained(if item.Frame? then f.(out := f.out + [MessageOf(item)]) else f, text)
  {
    if item.Frame? {
      FrameIsTaken(f, item);
    } else {
      OtherIsTaken(f, item);
    }
    ItemHasLines(f, item);
    DrainedLines(f, Lines(item), text);
  }

  /** However the printed stream is cut into chunks, the parser yields exactly the printed
      frames' events, ids and data, in order, and nothing is left over. */
  lemma PrintedStreamsReadBack(items: seq<Printed>, chunks: seq<string>)
    requires (forall item <- items :: Printable(item)) && Flatten(chunks) == Print(items)
    ensures FedAll(START, chunks) == Parse("", START.fields.(out := Messages(items)))
  {
    ChunksDoNotMatter(START.fields, "", chunks);
    ItemsAreTaken(START.fields, items);
    assert "" + Flatten(chunks) == Print(items) && [] + Messages(items) == Messages(items);
  }

  // ---- The standard keeps the last id ------------------------------------------------------------

  // Section 9.2.6 of the WHATWG HTML Living Standard on one line: an empty line hands out the
  // event with the last id seen and forgets the event's own fields only, and an id with a
  // null character is passed over. No id yet is `None`.
  function StandardTook(f: Fields, line: string): Fields {
    if line == "" then Dispatched(f).(id := f.id)
    else if line[0] != ':' && Field(line) == "id" && '\0' in Text(line) then f
    else Took(f, line)
  }

  function StandardTookAll(f: Fields, lines: seq<string>): Fields
    decreases lines
  {
    if lines == [] then f else StandardTookAll(StandardTook(f, lines[0]), lines[1..])
  }

  function LinesOf(items: seq<Printed>): seq<string> {
    if items == [] then [] else Lines(items[0]) + LinesOf(items[1..])
  }

  // The frames' messages, each under the last id so far.
  function StandardMessages(items: seq<Printed>, last: Option<string>): seq<Message>
    decreases items
  {
    if items == [] then []
    else if !items[0].Frame? then StandardMessages(items[1..], last)
    else
      var id := LastId(items[0], last);
      [Message(items[0].event, id, items[0].data)] + StandardMessages(items[1..], id)
  }

  function LastId(item: Printed, last: Option<string>): Option<string> {
    if item.Frame? && item.sequence.Some? then Some(Digits(item.sequence.value)) else last
  }

  lemma {:induction false} StandardTookAppend(f: Fields, a: seq<string>, b: seq<string>)
    ensures StandardTookAll(f, a + b) == StandardTookAll(StandardTookAll(f, a), b)
    decreases a
  {
    if a == [] {
      assert a + b == b;
    } else {
      assert (a + b)[1..] == a[1..] + b;
      StandardTookAppend(StandardTook(f, a[0]), a[1..], b);
    }
  }

  // On a plain field line the standard and the parser agree.
  lemma PlainLine(f: Fields, name: string, value: string)
    requires name != "" && ':' !in name && OneLine(value) && OneLine(name) && (name == "id" ==> '\0' !in value)
    ensures StandardTook(f, Labelled(name, value)) == Took(f, Labelled(name, value))
  {
    FieldLine(name, value);
  }

  lemma StandardBody(f: Fields, event: string, data: string)
    requires f.data == [] && OneLine(event) && OneLine(data)
    ensures StandardTookAll(f, [Labelled("event", event), Labelled("data", data), ""])
         == Fields("message", [], f.id, f.out + [Message(event, f.id, data)])
  {
    var lines := [Labelled("event", event), Labelled("data", data), ""];
    PlainLine(f, "event", event);
    EventTaken(f, event);
    var named := f.(event := event);
    PlainLine(named, "data", data);
    DataTaken(named, data);
    assert lines[1..] == [Labelled("data", data), ""] && lines[1..][1..] == [""] && [""][1..] == [];
    assert StandardTookAll(named, lines[1..]) == StandardTookAll(named.(data := [data]), [""]);
  }

  lemma StandardFrame(f: Fields, item: Printed)
    requires f.event == "message" && f.data == [] && item.Frame? && Printable(item)
    ensures var id := LastId(item, f.id);
            StandardTookAll(f, Lines(item)) == Fields("message", [], id, f.out + [Message(item.event, id, item.data)])
  {
    if item.sequence.Some? {
      var digits := Digits(item.sequence.value);
      DigitsAreOneLine(item.sequence.value);
      DigitsReadBack(item.sequence.value);
      PlainLine(f, "id", digits);
      IdTaken(f, digits);
      StandardBody(f.(id := Some(digits)), item.event, item.data);
      assert Lines(item)[1..] == [Labelled("event", item.event), Labelled("data", item.data), ""];
    } else {
      StandardBody(f, item.event, item.data);
    }
  }

  lemma StandardOther(f: Fields, item: Printed)
    requires f.event == "message" && f.data == [] && !item.Frame?
    ensures StandardTookAll(f, Lines(item)) == f
  {
    assert forall line: string :: [line, ""][1..] == [""] && [""][1..] == [];
    if item.Retry? {
      PlainLine(f, "retry", "2000");
      RetryTaken(f);
    }
    assert StandardTookAll(f, [""]) == f;
  }

  lemma {:induction false} StandardReads(f: Fields, items: seq<Printed>)
    requires f.event == "message" && f.data == [] && forall item <- items :: Printable(item)
    ensures StandardTookAll(f, LinesOf(items)).out == f.out + StandardMessages(items, f.id)
    decreases items
  {
    if items != [] {
      StandardTookAppend(f, Lines(items[0]), LinesOf(items[1..]));
      if items[0].Frame? {
        StandardFrame(f, items[0]);
        var next := StandardTookAll(f, Lines(items[0]));
        StandardReads(next, items[1..]);
        Associative(f.out, [Message(items[0].event, next.id, items[0].data)], StandardMessages(items[1..], next.id));
      } else {
        StandardOther(f, items[0]);
        StandardReads(f, items[1..]);
      }
    }
  }

  predicate Unnumbered(item: Printed) { item.Frame? && item.sequence.None? }

  predicate Numbered(item: Printed) { item.Frame? && item.sequence.Some? }

  predicate AnyUnnumbered(items: seq<Printed>) { exists item <- items :: Unnumbered(item) }

  // Some frame without an id comes after one with an id.
  predicate LosesId(items: seq<Printed>) {
    exists i, j | 0 <= i < j < |items| :: Numbered(items[i]) && Unnumbered(items[j])
  }

  lemma LosesIdHere(items: seq<Printed>)
    requires items != []
    ensures LosesId(items) <==> LosesId(items[1..]) || (Numbered(items[0]) && AnyUnnumbered(items[1..]))
  {
    var rest := items[1..];
    if LosesId(items) {
      var i, j :| 0 <= i < j < |items| && Numbered(items[i]) && Unnumbered(items[j]);
      assert rest[j - 1] == items[j];
      if i > 0 {
        assert rest[i - 1] == items[i];
      }
    }
    if LosesId(rest) {
      var i, j :| 0 <= i < j < |rest| && Numbered(rest[i]) && Unnumbered(rest[j]);
      assert items[i + 1] == rest[i] && items[j + 1] == rest[j];
    }
    if Numbered(items[0]) && AnyUnnumbered(rest) {
      var j :| 0 <= j < |rest| && Unnumbered(rest[j]);
      assert items[j + 1] == rest[j];
    }
  }

  lemma {:induction false} IdsAgree(items: seq<Printed>, last: Option<string>)
    ensures Messages(items) == StandardMessages(items, last)
       <==> !LosesId(items) && (last.Some? ==> !AnyUnnumbered(items))
    decreases items
  {
    if items != [] {
      var rest, id := items[1..], LastId(items[0], last);
      IdsAgree(rest, id);
      LosesIdHere(items);
      assert items == [items[0]] + rest;
      assert AnyUnnumbered(items) <==> Unnumbered(items[0]) || AnyUnnumbered(rest);
      if items[0].Frame? {
        SameHeads(MessageOf(items[0]), Message(items[0].event, id, items[0].data), Messages(rest),
          StandardMessages(rest, id));
      }
    }
  }

  lemma SameHeads<T>(a: T, b: T, s: seq<T>, t: seq<T>)
    ensures [a] + s == [b] + t <==> a == b && s == t
  {
    if [a] + s == [b] + t {
      assert a == ([a] + s)[0] == ([b] + t)[0] == b;
      assert s == ([a] + s)[1..] == ([b] + t)[1..] == t;
    }
  }

  /** However the printed stream is cut, the page reads it as the standard does exactly when no
      frame without an id comes after a frame with one. */
  lemma IdsPersistExactly(items: seq<Printed>, chunks: seq<string>)
    requires (forall item <- items :: Printable(item)) && Flatten(chunks) == Print(items)
    ensures FedAll(START, chunks).fields.out == StandardTookAll(START.fields, LinesOf(items)).out <==> !LosesId(items)
  {
    PrintedStreamsReadBack(items, chunks);
    StandardReadsAll(items);
    IdsAgree(items, None);
  }

  lemma StandardReadsAll(items: seq<Printed>)
    requires forall item <- items :: Printable(item)
    ensures StandardTookAll(START.fields, LinesOf(items)).out == StandardMessages(items, None)
  {
    StandardReads(START.fields, items);
    assert [] + StandardMessages(items, None) == StandardMessages(items, None);
  }

  /** The expectation fails on the stream of any finished review with activity: the closing
      snapshot and the complete frame carry no id and come after activity frames, which do. */
  lemma FinishedStreamsLoseId(before: seq<Printed>, activity: string, n: nat, snapshot: string, complete: string)
    ensures var last := [Frame("snapshot", snapshot, None), Frame("complete", complete, None)];
            LosesId(before + [Frame("activity", activity, Some(n))] + last)
  {
    var last := [Frame("snapshot", snapshot, None), Frame("complete", complete, None)];
    var items := before + [Frame("activity", activity, Some(n))] + last;
    assert Numbered(items[|before|]) && Unnumbered(items[|before| + 1]);
  }
}
