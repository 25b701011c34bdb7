/** The deduplication loops over findings they update in place. */
module Deduplication {
  import opened Findings
  import opened Dedup
  import opened Orders

  // A finding object; merging rewrites only these three fields.
  class Report {
    const claim: Finding
    var severityProposed: Severity
    var evidence: seq<Evidence>
    var stages: set<Label>

    constructor (f: Finding)
      ensures Value() == f
    {
      claim, severityProposed, evidence, stages := f, f.severityProposed, f.evidence, f.stages;
    }

    ghost function Value(): Finding
      reads this
    {
      claim.(severityProposed := severityProposed, evidence := evidence, stages := stages)
    }
  }

  ghost function Values(reports: seq<Report>): (fs: seq<Finding>)
    reads reports
    ensures |fs| == |reports| && forall i | 0 <= i < |fs| :: fs[i] == reports[i].Value()
  {
    seq(|reports|, i requires 0 <= i < |reports| reads reports => reports[i].Value())
  }

  lemma {:induction false} UnseenAppend(seen: seq<Evidence>, a: seq<Evidence>, e: Evidence)
    ensures Unseen(seen, a + [e]) == if e in seen then Unseen(seen, a) else Unseen(seen, a) + [e]
  {
    if a == [] {
      assert [e][1..] == [];
    } else {
      assert (a + [e])[1..] == a[1..] + [e];
      UnseenAppend(seen, a[1..], e);
    }
  }

  method Extended(seen: seq<Evidence>, more: seq<Evidence>) returns (all: seq<Evidence>)
    ensures all == seen + Unseen(seen, more)
  {
    all := seen;
    assert more[..0] == [] && seen + [] == seen;
    for i := 0 to |more|
      invariant all == seen + Unseen(seen, more[..i])
    {
      UnseenAppend(seen, more[..i], more[i]);
      assert more[..i + 1] == more[..i] + [more[i]];
      if more[i] !in seen {
        all := all + [more[i]];
      }
    }
    assert more[..|more|] == more;
  }

  method Combine(first: Report, other: Report)
    requires first != other
    modifies first
    ensures first.Value() == Combined(old(first.Value()), other.Value())
  {
    if other.severityProposed.Rank() < first.severityProposed.Rank() {
      first.severityProposed := other.severityProposed;
    }
    first.evidence := Extended(first.evidence, other.evidence);
    first.stages := first.stages + other.stages;
  }

  // The first kept finding that is the same defect, if any.
  method Find(rule: Rule, kept: seq<Report>, f: Report) returns (i: nat)
    ensures i <= |kept| && (forall j | 0 <= j < i :: !Same(rule, kept[j].Value(), f.Value()))
    ensures i < |kept| ==> Same(rule, kept[i].Value(), f.Value())
  {
    i := 0;
    while i < |kept|
      invariant i <= |kept| && forall j | 0 <= j < i :: !Same(rule, kept[j].Value(), f.Value())
    {
      KinSame(rule, kept[i].claim, kept[i].Value(), f.claim);
      KinSame(rule, f.claim, f.Value(), kept[i].Value());
      if Same(rule, kept[i].claim, f.claim) {
        return;
      }
      i := i + 1;
    }
  }

  // Merge or keep one finding; only the finding it merges into changes.
  method MergeOne(rule: Rule, kept: seq<Report>, f: Report) returns (next: seq<Report>)
    requires Distinct(kept) && f !in kept
    modifies kept
    ensures Values(next) == Merge(rule, old(Values(kept)), f.Value())
    ensures next == kept || next == kept + [f]
  {
    ghost var before := Values(kept);
    var i := Find(rule, kept, f);
    if i < |kept| {
      Combine(kept[i], f);
      MergeAt(rule, before, f.Value(), i);
      assert Values(kept) == before[i := Combined(before[i], f.Value())];
      return kept;
    } else {
      MergeKeepsPlaces(rule, before, f.Value());
      assert Values(kept + [f]) == before + [f.Value()];
      return kept + [f];
    }
  }

  lemma {:induction false} MergeAt(rule: Rule, kept: seq<Finding>, f: Finding, i: nat)
    requires i < |kept| && Same(rule, kept[i], f) && forall j | 0 <= j < i :: !Same(rule, kept[j], f)
    ensures Merge(rule, kept, f) == kept[i := Combined(kept[i], f)]
  {
    if i > 0 {
      MergeAt(rule, kept[1..], f, i - 1);
    }
  }

  // One pass over findings that are all different objects.
  method Pass(rule: Rule, reports: seq<Report>) returns (kept: seq<Report>)
    requires Distinct(reports)
    modifies reports
    ensures Values(kept) == MergeAll(rule, [], old(Values(reports)))
    ensures Distinct(kept) && forall k | 0 <= k < |kept| :: kept[k] in reports
  {
    ghost var all := Values(reports);
    kept := [];
    assert all[0..] == all;
    for i := 0 to |reports|
      invariant Distinct(kept) && forall k | 0 <= k < |kept| :: kept[k] in reports
      invariant forall j | i <= j < |reports| :: reports[j] !in kept
      invariant forall j | i <= j < |reports| :: reports[j].Value() == all[j]
      invariant MergeAll(rule, Values(kept), all[i..]) == MergeAll(rule, [], all)
    {
      assert all[i..][0] == all[i] && all[i..][1..] == all[i + 1..];
      assert reports[i] !in kept;
      kept := MergeOne(rule, kept, reports[i]);
    }
  }

  method Deduplicate(reports: seq<Report>, distance: int) returns (merged: seq<Report>)
    requires Distinct(reports)
    modifies reports
    ensures Values(merged) == Deduplicated(old(Values(reports)), distance)
    ensures Distinct(merged) && forall k | 0 <= k < |merged| :: merged[k] in reports
  {
    var exact := Pass(SameFingerprint, reports);
    merged := Pass(Nearby(distance), exact);
  }
}
