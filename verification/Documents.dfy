/** Fitting a document corpus into its budget, and cutting the subject into review units. */
module Documents {
  import opened Orders
  import opened Sequences

  // The shortest a section is cut to.
  const FLOOR: nat := 200

  // Roles from the page under review, which is cut last, to pages the search found.
  datatype Role = Subject | Supporting | Child | Space {
    function Rank(): nat {
      match this case Subject => 0 case Supporting => 1 case Child => 2 case Space => 3
    }
  }

  datatype Text = Text(chars: string)

  function Total(texts: seq<Text>): nat {
    if texts == [] then 0 else |texts[0].chars| + Total(texts[1..])
  }

  // What is kept of a text when the corpus exceeds its budget by `excess`.
  function Cut(text: Text, excess: nat): Text {
    var keep := if |text.chars| - excess < FLOOR then FLOOR else |text.chars| - excess;
    if keep < |text.chars| then Text(text.chars[..keep]) else text
  }

  // Texts in visiting order: from the `i`-th on, each is cut while the corpus is over budget.
  function Capped(texts: seq<Text>, i: nat, total: int, budget: int): seq<Text>
    decreases |texts| - i
  {
    if i >= |texts| || total <= budget then texts
    else
      var kept := Cut(texts[i], total - budget);
      Capped(texts[i := kept], i + 1, total - (|texts[i].chars| - |kept.chars|), budget)
  }

  // Every text is a prefix of what it was.
  predicate Prefixes(after: seq<Text>, before: seq<Text>) {
    |after| == |before| && forall k | 0 <= k < |after| :: after[k].chars <= before[k].chars
  }

  // The first `n` texts are at the floor.
  predicate AtFloor(texts: seq<Text>, n: nat) {
    forall k | 0 <= k < n && k < |texts| :: |texts[k].chars| <= FLOOR
  }

  lemma {:induction false} TotalUpdate(texts: seq<Text>, i: nat, text: Text)
    requires i < |texts|
    ensures Total(texts[i := text]) == Total(texts) - |texts[i].chars| + |text.chars|
  {
    if i > 0 {
      assert texts[i := text][1..] == texts[1..][i - 1 := text];
      TotalUpdate(texts[1..], i - 1, text);
    } else {
      assert texts[i := text][1..] == texts[1..];
    }
  }

  // One cut keeps a prefix, counts what it took, and stops at the budget or at the floor.
  lemma CutOnce(texts: seq<Text>, i: nat, total: int, budget: int)
    requires i < |texts| && total == Total(texts) && total > budget && AtFloor(texts, i)
    ensures var kept := Cut(texts[i], total - budget);
            var next, rest := texts[i := kept], total - (|texts[i].chars| - |kept.chars|);
            && Prefixes(next, texts) && rest == Total(next) && rest >= budget
            && (rest > budget ==> AtFloor(next, i + 1))
  {
    TotalUpdate(texts, i, Cut(texts[i], total - budget));
  }

  lemma PrefixesChain(last: seq<Text>, middle: seq<Text>, first: seq<Text>)
    requires Prefixes(last, middle) && Prefixes(middle, first)
    ensures Prefixes(last, first)
  {
    forall k | 0 <= k < |last| ensures last[k].chars <= first[k].chars {
      assert last[k].chars <= middle[k].chars <= first[k].chars;
    }
  }

  lemma {:induction false} CappedEnds(texts: seq<Text>, i: nat, total: int, budget: int)
    requires i <= |texts| && total == Total(texts) && total > budget && AtFloor(texts, i)
    ensures var after := Capped(texts, i, total, budget);
            Prefixes(after, texts)
            && (Total(after) == budget || (Total(after) > budget && AtFloor(after, |after|)))
    decreases |texts| - i
  {
    if i < |texts| {
      var kept := Cut(texts[i], total - budget);
      var next, rest := texts[i := kept], total - (|texts[i].chars| - |kept.chars|);
      CutOnce(texts, i, total, budget);
      if rest > budget {
        CappedEnds(next, i + 1, rest, budget);
        PrefixesChain(Capped(next, i + 1, rest, budget), next, texts);
      }
    }
  }

  // A text is shortened only after everything visited before it is at the floor.
  lemma {:induction false} CappedInOrder(texts: seq<Text>, i: nat, total: int, budget: int, j: nat, k: nat)
    requires i <= |texts| && j < k < |texts| && (total > budget ==> AtFloor(texts, i))
    ensures var after := Capped(texts, i, total, budget);
            |after| == |texts| && (forall m | 0 <= m < i :: after[m] == texts[m])
            && (i <= k && after[k] != texts[k] ==> |after[j].chars| <= FLOOR)
    decreases |texts| - i
  {
    if i < |texts| && total > budget {
      var kept := Cut(texts[i], total - budget);
      CappedInOrder(texts[i := kept], i + 1, total - (|texts[i].chars| - |kept.chars|), budget, j, k);
    }
  }

  // What truncation promises of texts in visiting order: it ends exactly at the budget, or above
  // it with every text at the floor; every text is a prefix of what it was; and a text is
  // shortened only once every text of a lower-priority role is at the floor.
  ghost predicate Fair(before: seq<Text>, after: seq<Text>, roles: seq<Role>, budget: int)
    requires |roles| == |before|
  {
    Prefixes(after, before)
    && (Total(after) == budget || (Total(after) > budget && AtFloor(after, |after|)))
    && forall j, k | 0 <= j < |after| && 0 <= k < |after| && after[k] != before[k]
      && roles[j].Rank() > roles[k].Rank() ::
         |after[j].chars| <= FLOOR
  }

  ghost predicate Descending(roles: seq<Role>) {
    forall j, k | 0 <= j < k < |roles| :: roles[j].Rank() >= roles[k].Rank()
  }

  lemma CappingIsFair(texts: seq<Text>, roles: seq<Role>, budget: int)
    requires |roles| == |texts| && Total(texts) > budget && Descending(roles)
    ensures Fair(texts, Capped(texts, 0, Total(texts), budget), roles, budget)
  {
    var after := Capped(texts, 0, Total(texts), budget);
    CappedEnds(texts, 0, Total(texts), budget);
    forall j, k | 0 <= j < |after| && 0 <= k < |after| && after[k] != texts[k] && roles[j].Rank() > roles[k].Rank()
      ensures |after[j].chars| <= FLOOR
    {
      assert j < k;
      CappedInOrder(texts, 0, Total(texts), budget, j, k);
    }
  }

  // ---- In place -----------------------------------------------------------------------------

  class Page {
    const role: Role
    var truncated: bool

    constructor (role: Role)
      ensures this.role == role && !truncated
    {
      this.role, truncated := role, false;
    }
  }

  class Section {
    const page: Page
    var text: Text
    var truncated: bool

    constructor (page: Page, text: Text)
      ensures this.page == page && this.text == text && !truncated
    {
      this.page, this.text, truncated := page, text, false;
    }
  }

  ghost function Texts(sections: seq<Section>): (texts: seq<Text>)
    reads sections
    ensures |texts| == |sections| && forall i | 0 <= i < |texts| :: texts[i] == sections[i].text
  {
    seq(|sections|, i requires 0 <= i < |sections| reads sections => sections[i].text)
  }

  method TotalLength(sections: seq<Section>) returns (total: nat)
    ensures total == Total(Texts(sections))
  {
    ghost var texts := Texts(sections);
    total := 0;
    for i := 0 to |sections|
      invariant total == Total(texts[..i])
    {
      TotalAppend(texts[..i], texts[i]);
      assert texts[..i + 1] == texts[..i] + [texts[i]];
      total := total + |sections[i].text.chars|;
    }
    assert texts[..|sections|] == texts;
  }

  // Shorten one section by up to `excess`, as far as the floor.
  method CutSection(section: Section, excess: nat) returns (removed: nat)
    modifies section, section.page
    ensures section.text == Cut(old(section.text), excess)
    ensures removed == |old(section.text).chars| - |section.text.chars|
    ensures section.text != old(section.text) ==> section.truncated && section.page.truncated
    ensures (old(section.truncated) ==> section.truncated) && (old(section.page.truncated) ==> section.page.truncated)
  {
    var length := |section.text.chars|;
    var keep := if length - excess < FLOOR then FLOOR else length - excess;
    if keep >= length {
      return 0;
    }
    section.text := Text(section.text.chars[..keep]);
    section.truncated := true;
    section.page.truncated := true;
    return length - keep;
  }

  // Every section whose text changed is marked, and so is its page.
  ghost predicate Marked(sections: seq<Section>, before: seq<Text>)
    reads sections, set s <- sections :: s.page
  {
    |before| == |sections| && forall i | 0 <= i < |sections| ::
      sections[i].text == before[i] || (sections[i].truncated && sections[i].page.truncated)
  }

  method CutAt(sections: seq<Section>, i: nat, excess: nat, ghost before: seq<Text>) returns (removed: nat)
    requires Distinct(sections) && i < |sections| == |before| && Marked(sections, before)
    modifies sections, set s <- sections :: s.page
    ensures Texts(sections) == old(Texts(sections))[i := Cut(old(sections[i].text), excess)]
    ensures removed == |old(Texts(sections))[i].chars| - |Texts(sections)[i].chars|
    ensures Marked(sections, before)
  {
    removed := CutSection(sections[i], excess);
  }

  // ---- Visiting order ---------------------------------------------------------------------------

  // A page of the corpus with its sections in document order.
  datatype Entry = Entry(page: Page, sections: seq<Section>) {
    function Rank(): nat { page.role.Rank() }
  }

  predicate NoMoreImportant(a: Entry, b: Entry) { a.Rank() >= b.Rank() }

  // The least important pages first, pages of one role in the order they were added.
  function Ordered(entries: seq<Entry>): seq<Entry> { Sort(NoMoreImportant, entries) }

  function Backwards(sections: seq<Section>): seq<Section> {
    if sections == [] then [] else Backwards(sections[1..]) + [sections[0]]
  }

  function Visits(order: seq<Entry>): seq<Section> {
    if order == [] then [] else Backwards(order[0].sections) + Visits(order[1..])
  }

  function Sections(entries: seq<Entry>): seq<Section> {
    if entries == [] then [] else entries[0].sections + Sections(entries[1..])
  }

  ghost predicate Descends(order: seq<Entry>) {
    forall j, k | 0 <= j < k < |order| :: order[j].Rank() >= order[k].Rank()
  }

  // Pages of one role keep their order, and none is lost.
  lemma OrderedKeepsRoles(entries: seq<Entry>, role: Role)
    ensures var ofRole := (e: Entry) => e.page.role == role;
            Filter(ofRole, Ordered(entries)) == Filter(ofRole, entries)
  {
    SortFilters(NoMoreImportant, entries, (e: Entry) => e.page.role == role);
  }

  lemma {:induction false} VisitedSections(order: seq<Entry>)
    ensures multiset(Visits(order)) == multiset(Sections(order))
  {
    if order != [] {
      BackwardsHolds(order[0].sections);
      VisitedSections(order[1..]);
    }
  }

  lemma {:induction false} BackwardsHolds(sections: seq<Section>)
    ensures multiset(Backwards(sections)) == multiset(sections)
  {
    if sections != [] {
      BackwardsHolds(sections[1..]);
      assert sections == [sections[0]] + sections[1..];
    }
  }

  lemma {:induction false} InsertedSections(e: Entry, sorted: seq<Entry>)
    ensures multiset(Sections(Insert(NoMoreImportant, e, sorted))) == multiset(e.sections) + multiset(Sections(sorted))
  {
    if sorted == [] || NoMoreImportant(e, sorted[0]) {
      assert ([e] + sorted)[1..] == sorted;
    } else {
      InsertedSections(e, sorted[1..]);
      var rest := Insert(NoMoreImportant, e, sorted[1..]);
      assert ([sorted[0]] + rest)[1..] == rest;
    }
  }

  /** Every section is visited exactly once. */
  lemma {:induction false} VisitsEverySection(entries: seq<Entry>)
    ensures multiset(Visits(Ordered(entries))) == multiset(Sections(entries))
  {
    VisitedSections(Ordered(entries));
    OrderedSections(entries);
  }

  lemma {:induction false} OrderedSections(entries: seq<Entry>)
    ensures multiset(Sections(Ordered(entries))) == multiset(Sections(entries))
  {
    if entries != [] {
      OrderedSections(entries[1..]);
      InsertedSections(entries[0], Ordered(entries[1..]));
    }
  }

  ghost function Roles(sections: seq<Section>): (roles: seq<Role>)
    ensures |roles| == |sections| && forall i | 0 <= i < |roles| :: roles[i] == sections[i].page.role
  {
    seq(|sections|, i requires 0 <= i < |sections| => sections[i].page.role)
  }

  // Each section is stored under its own page.
  ghost predicate Filed(entries: seq<Entry>) { forall e <- entries :: forall s <- e.sections :: s.page == e.page }

  lemma {:induction false} VisitedRoles(order: seq<Entry>, bound: nat)
    requires Descends(order) && Filed(order) && forall e <- order :: e.Rank() <= bound
    ensures Descending(Roles(Visits(order))) && forall s <- Visits(order) :: s.page.role.Rank() <= bound
  {
    if order != [] {
      var first, rest := Backwards(order[0].sections), Visits(order[1..]);
      assert order[0] in order;
      BackwardsHolds(order[0].sections);
      VisitedRoles(order[1..], order[0].Rank());
      forall s <- first ensures s.page == order[0].page {
        assert s in multiset(first);
      }
      forall j, k | 0 <= j < k < |first + rest|
        ensures (first + rest)[j].page.role.Rank() >= (first + rest)[k].page.role.Rank()
      {
        if j < |first| {
          assert (first + rest)[j] in first;
          assert k >= |first| ==> (first + rest)[k] in rest;
          assert k < |first| ==> (first + rest)[k] in first;
        } else {
          assert Roles(rest)[j - |first|].Rank() >= Roles(rest)[k - |first|].Rank();
        }
      }
    }
  }

  lemma OrderedHolds(entries: seq<Entry>)
    ensures Descends(Ordered(entries)) && forall e <- Ordered(entries) :: e in entries
  {
    SortSorts(NoMoreImportant, entries);
    SortMembers(NoMoreImportant, entries);
  }

  /** Sections are visited from the least important role to the page under review. */
  lemma VisitsDescend(entries: seq<Entry>)
    requires Filed(entries)
    ensures Descending(Roles(Visits(Ordered(entries))))
  {
    OrderedHolds(entries);
    VisitedRoles(Ordered(entries), 3);
  }

  lemma CappedOnce(texts: seq<Text>, i: nat, total: int, budget: int)
    requires i < |texts| && total > budget
    ensures var kept := Cut(texts[i], total - budget);
            Capped(texts, i, total, budget)
            == Capped(texts[i := kept], i + 1, total - (|texts[i].chars| - |kept.chars|), budget)
  {
  }

  // One section's turn; `later` is the size that is left.
  method CapNext(visits: seq<Section>, i: nat, total: int, budget: int, ghost before: seq<Text>) returns (later: int)
    requires Distinct(visits) && i < |visits| == |before| && Marked(visits, before) && total > budget
    modifies visits, set s <- visits :: s.page
    ensures Capped(Texts(visits), i + 1, later, budget) == Capped(old(Texts(visits)), i, total, budget)
    ensures Marked(visits, before)
  {
    CappedOnce(Texts(visits), i, total, budget);
    var removed := CutAt(visits, i, total - budget, before);
    later := total - removed;
  }

  // The inner loops, over the sections in visiting order.
  method CapVisited(visits: seq<Section>, all: nat, budget: int)
    requires Distinct(visits) && all == Total(Texts(visits))
    modifies visits, set s <- visits :: s.page
    ensures Texts(visits) == Capped(old(Texts(visits)), 0, all, budget)
    ensures Marked(visits, old(Texts(visits)))
  {
    ghost var before := Texts(visits);
    var total: int := all;
    ghost var goal := Capped(before, 0, all, budget);
    for i := 0 to |visits|
      invariant Capped(Texts(visits), i, total, budget) == goal && Marked(visits, before)
    {
      if total <= budget {
        return;
      }
      total := CapNext(visits, i, total, budget, before);
    }
  }

  lemma VisitsAreSections(entries: seq<Entry>)
    requires Distinct(Sections(entries)) && Filed(entries)
    ensures var visits := Visits(Ordered(entries));
            && multiset(visits) == multiset(Sections(entries)) && Distinct(visits) && Descending(Roles(visits))
            && forall s <- visits :: s in Sections(entries)
  {
    var visits := Visits(Ordered(entries));
    VisitsEverySection(entries);
    DistinctByCount(Sections(entries), visits);
    VisitsDescend(entries);
    forall s <- visits ensures s in Sections(entries) {
      assert s in multiset(Sections(entries));
    }
  }

  // Sections visited in this order are over budget or untouched, and end fairly.
  twostate predicate CapsFairly(visits: seq<Section>, budget: int, degraded: bool)
    reads visits, set s <- visits :: s.page
  {
    && Descending(Roles(visits))
    && degraded == (Total(old(Texts(visits))) > budget)
    && Marked(visits, old(Texts(visits)))
    && (if degraded then Fair(old(Texts(visits)), Texts(visits), Roles(visits), budget)
        else Texts(visits) == old(Texts(visits)))
  }

  method CapVisits(visits: seq<Section>, budget: int) returns (degraded: bool)
    requires Distinct(visits) && Descending(Roles(visits))
    modifies visits, set s <- visits :: s.page
    ensures CapsFairly(visits, budget, degraded)
  {
    ghost var before := Texts(visits);
    var total := TotalLength(visits);
    degraded := total > budget;
    if degraded {
      CappingIsFair(before, Roles(visits), budget);
      CapVisited(visits, total, budget);
    }
  }

  /** Shrinks the corpus to the budget in place: each section is visited once, from the least
      important role to the page under review; the texts end fairly; and what was cut is marked
      together with its page. */
  method ApplyTokenCap(entries: seq<Entry>, budget: int) returns (degraded: bool)
    requires Distinct(Sections(entries)) && Filed(entries)
    modifies Visits(Ordered(entries)), set s <- Visits(Ordered(entries)) :: s.page
    ensures multiset(Visits(Ordered(entries))) == multiset(Sections(entries))
    ensures CapsFairly(Visits(Ordered(entries)), budget, degraded)
  {
    VisitsAreSections(entries);
    degraded := CapVisits(Visits(Ordered(entries)), budget);
  }

  lemma {:induction false} TotalAppend(texts: seq<Text>, text: Text)
    ensures Total(texts + [text]) == Total(texts) + |text.chars|
  {
    if texts == [] {
      assert [text][1..] == [];
    } else {
      assert (texts + [text])[1..] == texts[1..] + [text];
      TotalAppend(texts[1..], text);
    }
  }

  // ---- Review units ----------------------------------------------------------------------------

  datatype Group = Group(sections: seq<Text>)

  function Gathered(groups: seq<Group>): seq<Text> {
    if groups == [] then [] else Gathered(groups[..|groups| - 1]) + groups[|groups| - 1].sections
  }

  // Within the budget, or one section that alone may exceed it.
  predicate Fits(sections: seq<Text>, budget: int) {
    sections != [] && (Total(sections) <= budget || |sections| == 1)
  }

  // The group before could not have taken the first of these sections.
  predicate NoRoom(before: Group, sections: seq<Text>, budget: int) {
    sections != [] && Total(before.sections) + |sections[0].chars| > budget
  }

  // Every group fits and none could have been larger.
  predicate Tight(groups: seq<Group>, budget: int) {
    groups == []
    || (Tight(groups[..|groups| - 1], budget) && Fits(groups[|groups| - 1].sections, budget)
        && (|groups| > 1 ==> NoRoom(groups[|groups| - 2], groups[|groups| - 1].sections, budget)))
  }

  lemma GroupAppended(groups: seq<Group>, current: seq<Text>, budget: int)
    requires Tight(groups, budget) && Fits(current, budget)
    requires groups != [] ==> NoRoom(groups[|groups| - 1], current, budget)
    ensures var all := groups + [Group(current)];
            Tight(all, budget) && Gathered(all) == Gathered(groups) + current
  {
    assert (groups + [Group(current)])[..|groups|] == groups;
  }

  // The group being filled, after taking one more section.
  lemma CurrentGrows(groups: seq<Group>, current: seq<Text>, section: Text, budget: int)
    requires current == [] || (Fits(current, budget) && Total(current) + |section.chars| <= budget)
    requires groups != [] ==> if current == [] then NoRoom(groups[|groups| - 1], [section], budget)
                              else NoRoom(groups[|groups| - 1], current, budget)
    ensures Total(current + [section]) == Total(current) + |section.chars| && Fits(current + [section], budget)
    ensures groups != [] ==> NoRoom(groups[|groups| - 1], current + [section], budget)
  {
    TotalAppend(current, section);
    if current == [] {
      assert current + [section] == [section];
    }
  }

  lemma LaidGrows(laid: seq<Text>, current: seq<Text>, sections: seq<Text>, i: nat)
    requires i < |sections| && (laid + current == sections[..i] || (current == [] && laid == sections[..i]))
    ensures laid + (current + [sections[i]]) == sections[..i + 1]
  {
    Associative(laid, current, [sections[i]]);
    assert laid + [] == laid;
  }

  /** The units partition the subject's sections in order, each within the budget or a single
      section, and no unit could have taken the next one's first section. */
  method Units(sections: seq<Text>, budget: int) returns (groups: seq<Group>)
    ensures Gathered(groups) == sections && Tight(groups, budget)
  {
    groups := [];
    var current: seq<Text> := [];
    var size := 0;
    for i := 0 to |sections|
      invariant Gathered(groups) + current == sections[..i] && size == Total(current)
      invariant Tight(groups, budget) && (current == [] ==> groups == [])
      invariant current != [] ==> Fits(current, budget)
      invariant groups != [] ==> NoRoom(groups[|groups| - 1], current, budget)
    {
      var section := sections[i];
      if current != [] && size + |section.chars| > budget {
        GroupAppended(groups, current, budget);
        groups := groups + [Group(current)];
        current, size := [], 0;
      }
      CurrentGrows(groups, current, section, budget);
      LaidGrows(Gathered(groups), current, sections, i);
      current := current + [section];
      size := size + |section.chars|;
    }
    assert sections[..|sections|] == sections;
    if current != [] {
      GroupAppended(groups, current, budget);
      groups := groups + [Group(current)];
    }
  }

  /** So every unit fits on its own, and consecutive units were split only for want of room. */
  lemma {:induction false} TightUnits(groups: seq<Group>, budget: int, k: nat)
    requires Tight(groups, budget) && k < |groups|
    ensures Fits(groups[k].sections, budget)
    ensures k + 1 < |groups| ==> NoRoom(groups[k], groups[k + 1].sections, budget)
  {
    if k + 1 < |groups| {
      TightUnits(groups[..|groups| - 1], budget, k);
    }
  }
}
