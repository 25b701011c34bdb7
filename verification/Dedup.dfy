/** Deduplication: exact fingerprints first, then nearby claims describing the same defect. */
module Dedup {
  import opened Findings

  // The two passes differ only in what they take for the same defect.
  datatype Rule = SameFingerprint | Nearby(distance: int)

  function Abs(n: int): int { if n < 0 then -n else n }

  // At least half of the two claims' words are shared.
  predicate Similar(a: set<Label>, b: set<Label>) {
    a != {} && b != {} && 2 * |a * b| >= |a + b|
  }

  predicate Related(first: Finding, other: Finding, distance: int) {
    first.file == other.file && first.category == other.category
    && Abs(first.lineStart - other.lineStart) <= distance
    && ((first.lineStart <= other.lineEnd && other.lineStart <= first.lineEnd) || Similar(first.words, other.words))
  }

  predicate Same(rule: Rule, first: Finding, other: Finding) {
    match rule
    case SameFingerprint => first.fingerprint == other.fingerprint
    case Nearby(distance) => Related(first, other, distance)
  }

  function Unseen(seen: seq<Evidence>, more: seq<Evidence>): seq<Evidence> {
    if more == [] then []
    else if more[0] in seen then Unseen(seen, more[1..])
    else [more[0]] + Unseen(seen, more[1..])
  }

  function Combined(first: Finding, other: Finding): Finding {
    first.(severityProposed := Worse(first.severityProposed, other.severityProposed),
           evidence := first.evidence + Unseen(first.evidence, other.evidence),
           stages := first.stages + other.stages)
  }

  // Merge a finding into the first kept one that is the same defect, else keep it.
  function Merge(rule: Rule, kept: seq<Finding>, f: Finding): seq<Finding> {
    if kept == [] then [f]
    else if Same(rule, kept[0], f) then [Combined(kept[0], f)] + kept[1..]
    else [kept[0]] + Merge(rule, kept[1..], f)
  }

  function MergeAll(rule: Rule, kept: seq<Finding>, findings: seq<Finding>): seq<Finding>
    decreases findings
  {
    if findings == [] then kept else MergeAll(rule, Merge(rule, kept, findings[0]), findings[1..])
  }

  function Deduplicated(findings: seq<Finding>, distance: int): seq<Finding> {
    MergeAll(Nearby(distance), [], MergeAll(SameFingerprint, [], findings))
  }

  // ---- What a merge leaves alone ---------------------------------------------------

  // Merging never changes where a finding is, what it claims, or how it was judged.
  predicate Kin(a: Finding, b: Finding) {
    a.fingerprint == b.fingerprint && a.file == b.file && a.category == b.category && a.lineStart == b.lineStart
    && a.lineEnd == b.lineEnd && a.words == b.words && a.outcome == b.outcome
  }

  lemma KinSame(rule: Rule, a: Finding, b: Finding, c: Finding)
    requires Kin(a, b)
    ensures Same(rule, a, c) == Same(rule, b, c) && Same(rule, c, a) == Same(rule, c, b)
  {
  }

  // Positions survive a merge; a new one appears exactly when nothing kept was the same.
  lemma {:induction false} MergeKeepsPlaces(rule: Rule, kept: seq<Finding>, f: Finding)
    ensures var next := Merge(rule, kept, f);
            (forall i | 0 <= i < |kept| :: i < |next| && Kin(next[i], kept[i]))
            && if exists x <- kept :: Same(rule, x, f) then |next| == |kept| else next == kept + [f]
  {
    if kept != [] && !Same(rule, kept[0], f) {
      var rest := Merge(rule, kept[1..], f);
      MergeKeepsPlaces(rule, kept[1..], f);
      assert forall i | 0 < i < |kept| :: kept[i] == kept[1..][i - 1];
      assert (exists x <- kept :: Same(rule, x, f)) <==> (exists x <- kept[1..] :: Same(rule, x, f));
    }
  }

  // ---- Results are pairwise different defects --------------------------------------

  predicate Apart(rule: Rule, kept: seq<Finding>) {
    forall i, j | 0 <= i < j < |kept| :: !Same(rule, kept[i], kept[j])
  }

  lemma MergeKeepsApart(rule: Rule, kept: seq<Finding>, f: Finding)
    requires Apart(rule, kept)
    ensures Apart(rule, Merge(rule, kept, f))
  {
    var next := Merge(rule, kept, f);
    MergeKeepsPlaces(rule, kept, f);
    forall i, j | 0 <= i < j < |next| ensures !Same(rule, next[i], next[j]) {
      KinSame(rule, next[i], kept[i], next[j]);
      if j < |kept| {
        KinSame(rule, next[j], kept[j], kept[i]);
      } else {
        assert kept[i] in kept && next[j] == f;
      }
    }
  }

  lemma {:induction false} MergeAllApart(rule: Rule, kept: seq<Finding>, findings: seq<Finding>)
    requires Apart(rule, kept)
    ensures Apart(rule, MergeAll(rule, kept, findings))
    decreases findings
  {
    if findings != [] {
      MergeKeepsApart(rule, kept, findings[0]);
      MergeAllApart(rule, Merge(rule, kept, findings[0]), findings[1..]);
    }
  }

  // Nothing merges among findings that are already apart.
  lemma {:induction false} ApartStays(rule: Rule, kept: seq<Finding>, findings: seq<Finding>)
    requires Apart(rule, kept + findings)
    ensures MergeAll(rule, kept, findings) == kept + findings
    decreases findings
  {
    var all := kept + findings;
    if findings == [] {
      assert all == kept;
    } else {
      var f := findings[0];
      forall x | x in kept ensures !Same(rule, x, f) {
        var i :| 0 <= i < |kept| && kept[i] == x;
        assert all[i] == x && all[|kept|] == f;
      }
      MergeKeepsPlaces(rule, kept, f);
      assert (kept + [f]) + findings[1..] == all;
      ApartStays(rule, kept + [f], findings[1..]);
    }
  }

  // ---- Grouping: every result sums up the findings merged into it -------------------

  function EvidenceOf(findings: seq<Finding>): set<Evidence> {
    set f, e | f in findings && e in f.evidence :: e
  }

  function StagesOf(findings: seq<Finding>): set<Label> {
    set f, s | f in findings && s in f.stages :: s
  }

  // `r` is the first of the group with the group's worst severity and all its evidence.
  ghost predicate Sums(r: Finding, group: seq<Finding>) {
    group != [] && Kin(r, group[0])
    && (forall g <- group :: r.severityProposed.Rank() <= g.severityProposed.Rank())
    && (exists g <- group :: r.severityProposed == g.severityProposed)
    && EvidenceOf([r]) == EvidenceOf(group) && StagesOf([r]) == StagesOf(group)
  }

  datatype Group = Group(members: seq<Finding>)

  function Members(groups: seq<Group>): multiset<Finding> {
    if groups == [] then multiset{} else multiset(groups[0].members) + Members(groups[1..])
  }

  lemma {:induction false} UnseenCompletes(seen: seq<Evidence>, more: seq<Evidence>)
    ensures forall e :: e in seen + Unseen(seen, more) <==> e in seen || e in more
  {
    if more != [] {
      UnseenCompletes(seen, more[1..]);
    }
  }

  lemma CombinedSums(x: Finding, xs: seq<Finding>, y: Finding, ys: seq<Finding>)
    requires Sums(x, xs) && Sums(y, ys)
    ensures Sums(Combined(x, y), xs + ys)
  {
    var r := Combined(x, y);
    UnseenCompletes(x.evidence, y.evidence);
    assert EvidenceOf([r]) == EvidenceOf([x]) + EvidenceOf([y]);
    assert EvidenceOf(xs + ys) == EvidenceOf(xs) + EvidenceOf(ys);
    assert StagesOf([r]) == StagesOf([x]) + StagesOf([y]);
    assert StagesOf(xs + ys) == StagesOf(xs) + StagesOf(ys);
    if r.severityProposed == x.severityProposed {
      var g :| g in xs && x.severityProposed == g.severityProposed;
      assert g in xs + ys;
    } else {
      var g :| g in ys && y.severityProposed == g.severityProposed;
      assert g in xs + ys;
    }
  }

  // `g` carries the fingerprint of `h`, which is the first's or belongs near it.
  predicate Linked(first: Finding, h: Finding, g: Finding, distance: int) {
    h.fingerprint == g.fingerprint && (h.fingerprint == first.fingerprint || Related(first, h, distance))
  }

  ghost predicate Reached(group: seq<Finding>, first: Finding, g: Finding, distance: int) {
    exists h :: h in group && Linked(first, h, g, distance)
  }

  // Why findings share a group: one fingerprint, or claims near the group's first.
  ghost predicate Justified(rule: Rule, group: seq<Finding>) {
    group != [] &&
    match rule
    case SameFingerprint => forall g <- group :: g.fingerprint == group[0].fingerprint
    case Nearby(distance) => forall g <- group :: Reached(group, group[0], g, distance)
  }

  ghost predicate Explains(rule: Rule, r: Finding, group: Group) {
    Sums(r, group.members) && Justified(rule, group.members)
  }

  ghost predicate AllExplained(rule: Rule, kept: seq<Finding>, groups: seq<Group>) {
    if kept == [] then groups == []
    else groups != [] && Explains(rule, kept[0], groups[0]) && AllExplained(rule, kept[1..], groups[1..])
  }

  lemma MergedJustified(rule: Rule, xs: seq<Finding>, ys: seq<Finding>)
    requires Justified(rule, xs) && Justified(SameFingerprint, ys) && Same(rule, xs[0], ys[0])
    ensures Justified(rule, xs + ys)
  {
    if rule.Nearby? {
      forall g | g in xs + ys ensures Reached(xs + ys, xs[0], g, rule.distance) {
        if g in xs {
          assert Reached(xs, xs[0], g, rule.distance);
          var h :| h in xs && Linked(xs[0], h, g, rule.distance);
          assert h in xs + ys && Linked(xs[0], h, g, rule.distance);
        } else {
          assert ys[0] in xs + ys && Linked(xs[0], ys[0], g, rule.distance);
        }
      }
    }
  }

  lemma AloneJustified(rule: Rule, group: seq<Finding>)
    requires Justified(SameFingerprint, group)
    ensures Justified(rule, group)
  {
    if rule.Nearby? {
      forall g | g in group ensures Reached(group, group[0], g, rule.distance) {
        assert group[0] in group && Linked(group[0], group[0], g, rule.distance);
      }
    }
  }

  // A finding that is the same as a group's sum joins the group.
  lemma Joins(rule: Rule, x: Finding, xs: seq<Finding>, f: Finding, ys: seq<Finding>)
    requires Explains(rule, x, Group(xs)) && Explains(SameFingerprint, f, Group(ys)) && Same(rule, x, f)
    ensures Explains(rule, Combined(x, f), Group(xs + ys))
    ensures multiset(xs + ys) == multiset(xs) + multiset(ys)
  {
    CombinedSums(x, xs, f, ys);
    KinSame(rule, x, xs[0], f);
    KinSame(rule, f, ys[0], xs[0]);
    MergedJustified(rule, xs, ys);
  }

  // The groups after one more finding, itself the sum of a group, is merged or kept.
  ghost function MergedGroups(rule: Rule, kept: seq<Finding>, groups: seq<Group>, f: Finding, group: Group): seq<Group>
  {
    if kept == [] || groups == [] then [group]
    else if Same(rule, kept[0], f) then [Group(groups[0].members + group.members)] + groups[1..]
    else [groups[0]] + MergedGroups(rule, kept[1..], groups[1..], f, group)
  }

  lemma {:induction false} MergedExplained(rule: Rule, kept: seq<Finding>, groups: seq<Group>, f: Finding, group: Group)
    requires AllExplained(rule, kept, groups) && Explains(SameFingerprint, f, group)
    ensures AllExplained(rule, Merge(rule, kept, f), MergedGroups(rule, kept, groups, f, group))
  {
    if kept == [] {
      AloneJustified(rule, group.members);
    } else if Same(rule, kept[0], f) {
      Joins(rule, kept[0], groups[0].members, f, group.members);
    } else {
      MergedExplained(rule, kept[1..], groups[1..], f, group);
    }
  }

  lemma MembersFront(group: Group, rest: seq<Group>)
    ensures Members([group] + rest) == multiset(group.members) + Members(rest)
  {
    assert ([group] + rest)[1..] == rest;
  }

  lemma {:induction false} MergedMembers(rule: Rule, kept: seq<Finding>, groups: seq<Group>, f: Finding, group: Group)
    requires |kept| == |groups|
    ensures Members(MergedGroups(rule, kept, groups, f, group)) == Members(groups) + multiset(group.members)
  {
    if kept == [] {
      assert [group] + [] == [group];
      MembersFront(group, []);
    } else if Same(rule, kept[0], f) {
      var joined := Group(groups[0].members + group.members);
      MembersFront(joined, groups[1..]);
      assert multiset(joined.members) == multiset(groups[0].members) + multiset(group.members);
    } else {
      MergedMembers(rule, kept[1..], groups[1..], f, group);
      MembersFront(groups[0], MergedGroups(rule, kept[1..], groups[1..], f, group));
    }
  }

  lemma MergedStep(rule: Rule, kept: seq<Finding>, groups: seq<Group>, f: Finding, group: Group)
    requires AllExplained(rule, kept, groups) && Explains(SameFingerprint, f, group)
    ensures var merged := MergedGroups(rule, kept, groups, f, group);
            AllExplained(rule, Merge(rule, kept, f), merged)
            && Members(merged) == Members(groups) + multiset(group.members)
  {
    SameLength(rule, kept, groups);
    MergedExplained(rule, kept, groups, f, group);
    MergedMembers(rule, kept, groups, f, group);
  }

  lemma {:induction false} SameLength(rule: Rule, kept: seq<Finding>, groups: seq<Group>)
    requires AllExplained(rule, kept, groups)
    ensures |kept| == |groups|
  {
    if kept != [] && groups != [] {
      SameLength(rule, kept[1..], groups[1..]);
    }
  }

  lemma {:induction false} MergeAllGroups(
      rule: Rule, kept: seq<Finding>, groups: seq<Group>, findings: seq<Finding>, parts: seq<Group>)
    returns (next: seq<Group>)
    requires AllExplained(rule, kept, groups) && AllExplained(SameFingerprint, findings, parts)
    ensures AllExplained(rule, MergeAll(rule, kept, findings), next)
    ensures Members(next) == Members(groups) + Members(parts)
    decreases findings
  {
    if findings == [] {
      next := groups;
    } else {
      var merged := MergedGroups(rule, kept, groups, findings[0], parts[0]);
      MergedStep(rule, kept, groups, findings[0], parts[0]);
      assert Members(parts) == multiset(parts[0].members) + Members(parts[1..]);
      next := MergeAllGroups(rule, Merge(rule, kept, findings[0]), merged, findings[1..], parts[1..]);
    }
  }

  function Singles(findings: seq<Finding>): seq<Group> {
    if findings == [] then [] else [Group([findings[0]])] + Singles(findings[1..])
  }

  lemma {:induction false} SinglesExplain(findings: seq<Finding>)
    ensures AllExplained(SameFingerprint, findings, Singles(findings))
    ensures Members(Singles(findings)) == multiset(findings)
  {
    if findings != [] {
      SinglesExplain(findings[1..]);
      assert findings[0] in [findings[0]];
      assert findings == [findings[0]] + findings[1..];
    }
  }

  /** Deduplication splits the findings, each counted once, into one group per result: the
      result keeps its first member's identity and judgement with the group's worst
      proposed severity, all its evidence and stages, and every member is there because a
      finding of its fingerprint is the first member's or related to it. */
  lemma ResultsSumTheirGroups(findings: seq<Finding>, distance: int) returns (groups: seq<Group>)
    ensures AllExplained(Nearby(distance), Deduplicated(findings, distance), groups)
    ensures Members(groups) == multiset(findings)
  {
    var parts := Singles(findings);
    SinglesExplain(findings);
    var exact := MergeAllGroups(SameFingerprint, [], [], findings, parts);
    groups := MergeAllGroups(Nearby(distance), [], [], MergeAll(SameFingerprint, [], findings), exact);
  }

  lemma {:induction false} MergeKeepsEvidence(rule: Rule, kept: seq<Finding>, f: Finding)
    ensures EvidenceOf(Merge(rule, kept, f)) == EvidenceOf(kept) + EvidenceOf([f])
  {
    if kept != [] {
      var rest := kept[1..];
      assert EvidenceOf(kept) == EvidenceOf([kept[0]]) + EvidenceOf(rest);
      if Same(rule, kept[0], f) {
        var x := Combined(kept[0], f);
        UnseenCompletes(kept[0].evidence, f.evidence);
        assert EvidenceOf([x]) == EvidenceOf([kept[0]]) + EvidenceOf([f]);
        assert EvidenceOf([x] + rest) == EvidenceOf([x]) + EvidenceOf(rest);
      } else {
        var merged := Merge(rule, rest, f);
        MergeKeepsEvidence(rule, rest, f);
        assert EvidenceOf([kept[0]] + merged) == EvidenceOf([kept[0]]) + EvidenceOf(merged);
      }
    }
  }

  lemma {:induction false} MergeAllKeepsEvidence(rule: Rule, kept: seq<Finding>, findings: seq<Finding>)
    ensures EvidenceOf(MergeAll(rule, kept, findings)) == EvidenceOf(kept) + EvidenceOf(findings)
    decreases findings
  {
    if findings != [] {
      MergeKeepsEvidence(rule, kept, findings[0]);
      MergeAllKeepsEvidence(rule, Merge(rule, kept, findings[0]), findings[1..]);
      assert EvidenceOf(findings) == EvidenceOf([findings[0]]) + EvidenceOf(findings[1..]);
    }
  }

  /** No evidence is lost and none is invented. */
  lemma EvidenceIsConserved(findings: seq<Finding>, distance: int)
    ensures EvidenceOf(Deduplicated(findings, distance)) == EvidenceOf(findings)
  {
    MergeAllKeepsEvidence(SameFingerprint, [], findings);
    MergeAllKeepsEvidence(Nearby(distance), [], MergeAll(SameFingerprint, [], findings));
  }

  // ---- Results differ from each other, and deduplicating again changes nothing --------

  // Merging by any rule among findings with different fingerprints keeps them different.
  lemma MergeKeepsFingerprints(rule: Rule, kept: seq<Finding>, f: Finding, rest: seq<Finding>)
    requires Apart(SameFingerprint, kept + ([f] + rest))
    ensures Apart(SameFingerprint, Merge(rule, kept, f) + rest)
  {
    var all, next := kept + ([f] + rest), Merge(rule, kept, f);
    MergeKeepsPlaces(rule, kept, f);
    if |next| > |kept| {
      assert next + rest == all;
    } else {
      forall i, j | 0 <= i < j < |next + rest| ensures !Same(SameFingerprint, (next + rest)[i], (next + rest)[j]) {
        var i', j' := if i < |kept| then i else i + 1, if j < |kept| then j else j + 1;
        assert !Same(SameFingerprint, all[i'], all[j']);
      }
    }
  }

  lemma {:induction false} MergeAllKeepsFingerprints(rule: Rule, kept: seq<Finding>, findings: seq<Finding>)
    requires Apart(SameFingerprint, kept + findings)
    ensures Apart(SameFingerprint, MergeAll(rule, kept, findings))
    decreases findings
  {
    if findings == [] {
      assert kept + findings == kept;
    } else {
      assert findings == [findings[0]] + findings[1..];
      MergeKeepsFingerprints(rule, kept, findings[0], findings[1..]);
      MergeAllKeepsFingerprints(rule, Merge(rule, kept, findings[0]), findings[1..]);
    }
  }

  /** No two results share a fingerprint or are related, and deduplicating the results
      again changes nothing. */
  lemma ResultsAreApart(findings: seq<Finding>, distance: int)
    ensures var r := Deduplicated(findings, distance);
            Apart(SameFingerprint, r) && Apart(Nearby(distance), r) && Deduplicated(r, distance) == r
  {
    var exact := MergeAll(SameFingerprint, [], findings);
    var r := Deduplicated(findings, distance);
    MergeAllApart(SameFingerprint, [], findings);
    MergeAllApart(Nearby(distance), [], exact);
    assert [] + exact == exact && [] + r == r;
    MergeAllKeepsFingerprints(Nearby(distance), [], exact);
    ApartStays(SameFingerprint, [], r);
    ApartStays(Nearby(distance), [], r);
  }

  // ---- Locality: a file's results depend on that file's findings alone -----------------

  function OnFile(findings: seq<Finding>, file: Label): seq<Finding> {
    if findings == [] then []
    else if findings[0].file == file then [findings[0]] + OnFile(findings[1..], file)
    else OnFile(findings[1..], file)
  }

  // Every finding's fingerprint determines its file.
  ghost predicate Filed(findings: seq<Finding>, fileOf: Label -> Label) {
    forall f <- findings :: f.file == fileOf(f.fingerprint)
  }

  lemma {:induction false} MergeOnFile(rule: Rule, kept: seq<Finding>, f: Finding, file: Label, fileOf: Label -> Label)
    requires Filed(kept, fileOf) && Filed([f], fileOf)
    ensures Filed(Merge(rule, kept, f), fileOf)
    ensures OnFile(Merge(rule, kept, f), file)
         == if f.file == file then Merge(rule, OnFile(kept, file), f) else OnFile(kept, file)
  {
    if kept == [] {
      assert [f][1..] == [];
    } else if Same(rule, kept[0], f) {
      assert f in [f] && kept[0].file == f.file;
    } else {
      assert Filed(kept[1..], fileOf);
      MergeOnFile(rule, kept[1..], f, file, fileOf);
    }
  }

  lemma {:induction false} MergeAllOnFile(
      rule: Rule, kept: seq<Finding>, findings: seq<Finding>, file: Label, fileOf: Label -> Label)
    requires Filed(kept, fileOf) && Filed(findings, fileOf)
    ensures Filed(MergeAll(rule, kept, findings), fileOf)
    ensures OnFile(MergeAll(rule, kept, findings), file)
         == MergeAll(rule, OnFile(kept, file), OnFile(findings, file))
    decreases findings
  {
    if findings != [] {
      MergeOnFile(rule, kept, findings[0], file, fileOf);
      MergeAllOnFile(rule, Merge(rule, kept, findings[0]), findings[1..], file, fileOf);
    }
  }

  // Equal fingerprints imply equal files.
  ghost predicate FingerprintsNameFiles(findings: seq<Finding>) {
    forall f, g | f in findings && g in findings && f.fingerprint == g.fingerprint :: f.file == g.file
  }

  /** Deduplicating everything and looking at one file is deduplicating that file's findings. */
  lemma DeduplicationIsLocal(findings: seq<Finding>, distance: int, file: Label)
    requires FingerprintsNameFiles(findings)
    ensures OnFile(Deduplicated(findings, distance), file) == Deduplicated(OnFile(findings, file), distance)
  {
    var files := map f | f in findings :: f.fingerprint := f.file;
    var fileOf := k => if k in files then files[k] else 0;
    MergeAllOnFile(SameFingerprint, [], findings, file, fileOf);
    MergeAllOnFile(Nearby(distance), [], MergeAll(SameFingerprint, [], findings), file, fileOf);
  }
}
