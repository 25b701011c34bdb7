/** Scoring reported findings against labelled ones: greedy pairing, precision and recall. */
module Evaluation {
  import opened Orders
  import opened Sequences

  // A legacy fingerprint, or where a labelled or reported finding lies.
  datatype Item = Legacy(text: int) | Located(file: int, category: int, lineStart: int, lineEnd: int)

  predicate Matches(expected: Item, actual: Item, tolerance: int) {
    if expected.Legacy? || actual.Legacy? then expected == actual
    else
      expected.file == actual.file && expected.category == actual.category
      && actual.lineStart <= expected.lineEnd + tolerance && expected.lineStart <= actual.lineEnd + tolerance
  }

  // Pairs of a label and a report, each used at most once, that match.
  ghost predicate Matching(pairs: set<(nat, nat)>, expected: seq<Item>, actual: seq<Item>, tolerance: int) {
    (forall p <- pairs :: p.0 < |expected| && p.1 < |actual| && Matches(expected[p.0], actual[p.1], tolerance))
    && forall p, q | p in pairs && q in pairs && p != q :: p.0 != q.0 && p.1 != q.1
  }

  function Labels(pairs: set<(nat, nat)>): set<nat> { set p <- pairs :: p.0 }

  function Reports(pairs: set<(nat, nat)>): set<nat> { set p <- pairs :: p.1 }

  // No label and report left over match each other.
  ghost predicate Maximal(pairs: set<(nat, nat)>, labels: nat, expected: seq<Item>, actual: seq<Item>, tolerance: int) {
    forall i, j | 0 <= i < labels && i < |expected| && 0 <= j < |actual| && i !in Labels(pairs)
      && j !in Reports(pairs) ::
      !Matches(expected[i], actual[j], tolerance)
  }

  method Pair(expected: seq<Item>, actual: seq<Item>, tolerance: int) returns (pairs: set<(nat, nat)>)
    ensures Matching(pairs, expected, actual, tolerance) && Maximal(pairs, |expected|, expected, actual, tolerance)
  {
    pairs := {};
    var used: set<nat> := {};
    for i := 0 to |expected|
      invariant Matching(pairs, expected, actual, tolerance) && Maximal(pairs, i, expected, actual, tolerance)
      invariant used == Reports(pairs) && forall p <- pairs :: p.0 < i
    {
      var j := 0;
      while j < |actual| && (j in used || !Matches(expected[i], actual[j], tolerance))
        invariant j <= |actual|
        invariant forall k | 0 <= k < j :: k in used || !Matches(expected[i], actual[k], tolerance)
      {
        j := j + 1;
      }
      if j < |actual| {
        PairGrows(pairs, i, j, expected, actual, tolerance);
        used := used + {j};
        pairs := pairs + {(i, j)};
      } else {
        assert i !in Labels(pairs);
      }
    }
  }

  lemma PairGrows(pairs: set<(nat, nat)>, i: nat, j: nat, expected: seq<Item>, actual: seq<Item>, tolerance: int)
    requires i < |expected| && j < |actual| && Matches(expected[i], actual[j], tolerance)
    requires Matching(pairs, expected, actual, tolerance) && Maximal(pairs, i, expected, actual, tolerance)
    requires j !in Reports(pairs) && forall p <- pairs :: p.0 < i
    ensures Matching(pairs + {(i, j)}, expected, actual, tolerance)
    ensures Maximal(pairs + {(i, j)}, i + 1, expected, actual, tolerance)
    ensures Reports(pairs + {(i, j)}) == Reports(pairs) + {j}
  {
    var all := pairs + {(i, j)};
    assert (i, j) in all;
    assert Labels(all) == Labels(pairs) + {i} && Reports(all) == Reports(pairs) + {j};
    forall p, q | p in all && q in all && p != q ensures p.0 != q.0 && p.1 != q.1 {
      assert p in pairs ==> p.1 in Reports(pairs);
      assert q in pairs ==> q.1 in Reports(pairs);
    }
  }

  // ---- How good a greedy pairing is -------------------------------------------------------

  ghost predicate DistinctLabels(pairs: set<(nat, nat)>) {
    forall p, q | p in pairs && q in pairs && p != q :: p.0 != q.0
  }

  lemma {:induction false} LabelsCount(pairs: set<(nat, nat)>)
    requires DistinctLabels(pairs)
    ensures |Labels(pairs)| == |pairs|
  {
    if pairs != {} {
      var p :| p in pairs;
      LabelsCount(pairs - {p});
      assert Labels(pairs) == Labels(pairs - {p}) + {p.0};
    }
  }

  function Flipped(pairs: set<(nat, nat)>): set<(nat, nat)> { set p <- pairs :: (p.1, p.0) }

  lemma {:induction false} FlippedCount(pairs: set<(nat, nat)>)
    ensures |Flipped(pairs)| == |pairs|
  {
    if pairs != {} {
      var p :| p in pairs;
      FlippedCount(pairs - {p});
      assert Flipped(pairs) == Flipped(pairs - {p}) + {(p.1, p.0)};
    }
  }

  lemma ReportsCount(pairs: set<(nat, nat)>)
    requires forall p, q | p in pairs && q in pairs && p != q :: p.1 != q.1
    ensures |Reports(pairs)| == |pairs|
  {
    FlippedCount(pairs);
    LabelsCount(Flipped(pairs));
    assert Labels(Flipped(pairs)) == Reports(pairs) by {
      assert forall p <- pairs :: (p.1, p.0) in Flipped(pairs);
    }
  }

  /** No one-to-one matching of labels to reports is more than twice the size of a maximal one. */
  lemma GreedyIsHalfOptimal(
      pairs: set<(nat, nat)>, best: set<(nat, nat)>, expected: seq<Item>, actual: seq<Item>, tolerance: int)
    requires Matching(pairs, expected, actual, tolerance) && Maximal(pairs, |expected|, expected, actual, tolerance)
    requires Matching(best, expected, actual, tolerance)
    ensures |best| <= 2 * |pairs|
  {
    var byLabel := set p | p in best && p.0 in Labels(pairs);
    var byReport := set p | p in best && p.0 !in Labels(pairs);
    assert best == byLabel + byReport && byLabel !! byReport;
    forall p | p in byReport ensures p.1 in Reports(pairs) {
      assert Matches(expected[p.0], actual[p.1], tolerance);
    }
    LabelsCount(pairs);
    ReportsCount(pairs);
    LabelsCount(byLabel);
    ReportsCount(byReport);
    SubsetSize(Labels(byLabel), Labels(pairs));
    SubsetSize(Reports(byReport), Reports(pairs));
  }

  lemma PairsAreFew(pairs: set<(nat, nat)>, expected: seq<Item>, actual: seq<Item>, tolerance: int)
    requires Matching(pairs, expected, actual, tolerance)
    ensures |pairs| <= |expected| && |pairs| <= |actual|
  {
    LabelsCount(pairs);
    ReportsCount(pairs);
    InRange(Labels(pairs), |expected|);
    InRange(Reports(pairs), |actual|);
  }

  lemma {:induction false} InRange(s: set<nat>, n: nat)
    requires forall x <- s :: x < n
    ensures |s| <= n
  {
    if n > 0 {
      InRange(s - {n - 1}, n - 1);
      assert s <= (s - {n - 1}) + {n - 1};
      if n - 1 in s {
        assert s == (s - {n - 1}) + {n - 1};
      } else {
        assert s == s - {n - 1};
      }
    } else {
      assert s == {};
    }
  }

  // The same items, each once.
  ghost predicate Deduped(seen: seq<Item>, items: seq<Item>) {
    (forall x :: x in seen <==> x in items) && forall i, j | 0 <= i < j < |seen| :: seen[i] != seen[j]
  }

  method Unique(items: seq<Item>) returns (seen: seq<Item>)
    ensures Deduped(seen, items)
  {
    seen := [];
    for i := 0 to |items|
      invariant Deduped(seen, items[..i])
    {
      assert items[..i + 1] == items[..i] + [items[i]];
      if items[i] !in seen {
        seen := seen + [items[i]];
      }
    }
    assert items[..|items|] == items;
  }

  datatype Row = Row(mr: int, expected: seq<Item>, actual: seq<Item>, proposed: int, fabricated: int, latency: real)

  // A row's distinct labels and reports and how they were paired.
  datatype Judged = Judged(labels: seq<Item>, reports: seq<Item>, pairs: set<(nat, nat)>)

  ghost predicate Fair(j: Judged, row: Row, tolerance: int) {
    Deduped(j.labels, row.expected) && Deduped(j.reports, row.actual)
    && Matching(j.pairs, j.labels, j.reports, tolerance) && Maximal(j.pairs, |j.labels|, j.labels, j.reports, tolerance)
  }

  datatype Totals = Totals(matched: nat, expected: nat, actual: nat)

  function Sum(judged: seq<Judged>): Totals {
    if judged == [] then Totals(0, 0, 0)
    else
      var rest, last := Sum(judged[..|judged| - 1]), judged[|judged| - 1];
      Totals(rest.matched + |last.pairs|, rest.expected + |last.labels|, rest.actual + |last.reports|)
  }

  datatype Scores =
    | TooFew
    | Scores(precision: real, recall: real, fabrication: real, p95: real, passed: bool)

  method Judge(row: Row, tolerance: int) returns (j: Judged)
    ensures Fair(j, row, tolerance) && |j.pairs| <= |j.labels| && |j.pairs| <= |j.reports|
  {
    var labels := Unique(row.expected);
    var reports := Unique(row.actual);
    var pairs := Pair(labels, reports, tolerance);
    PairsAreFew(pairs, labels, reports, tolerance);
    j := Judged(labels, reports, pairs);
  }

  lemma SumGrows(judged: seq<Judged>, j: Judged)
    ensures Sum(judged + [j]) == Totals(Sum(judged).matched + |j.pairs|, Sum(judged).expected + |j.labels|,
                                        Sum(judged).actual + |j.reports|)
  {
    assert (judged + [j])[..|judged|] == judged;
  }

  ghost predicate AllFair(judged: seq<Judged>, rows: seq<Row>, tolerance: int) {
    |judged| == |rows| && forall k | 0 <= k < |rows| :: Fair(judged[k], rows[k], tolerance)
  }

  method JudgeAll(rows: seq<Row>, tolerance: int) returns (judged: seq<Judged>, t: Totals)
    ensures AllFair(judged, rows, tolerance)
    ensures t == Sum(judged) && t.matched <= t.actual && t.matched <= t.expected
  {
    judged, t := [], Totals(0, 0, 0);
    for i := 0 to |rows|
      invariant |judged| == i && forall k | 0 <= k < i :: Fair(judged[k], rows[k], tolerance)
      invariant Sum(judged) == t && t.matched <= t.actual && t.matched <= t.expected
    {
      var j := Judge(rows[i], tolerance);
      SumGrows(judged, j);
      judged := judged + [j];
      t := Totals(t.matched + |j.pairs|, t.expected + |j.labels|, t.actual + |j.reports|);
    }
  }

  // `r` is the share `part` has of `whole`, within [0, 1].
  predicate IsShare(r: real, part: nat, whole: nat) {
    0.0 <= r <= 1.0 && r * whole as real == part as real
  }

  // ---- Latency ---------------------------------------------------------------------------------

  function Ascending(values: seq<real>): seq<real> { Sort((a: real, b: real) => a <= b, values) }

  predicate IsAscending(s: seq<real>) { forall i, j | 0 <= i < j < |s| :: s[i] <= s[j] }

  lemma AscendingSorts(values: seq<real>, keep: real -> bool)
    ensures IsAscending(Ascending(values)) && |Ascending(values)| == |values|
    ensures |Filter(keep, Ascending(values))| == |Filter(keep, values)|
  {
    SortSorts((a: real, b: real) => a <= b, values);
    SortHolds((a: real, b: real) => a <= b, values);
    SortFilters((a: real, b: real) => a <= b, values, keep);
  }

  lemma {:induction false} FilterAll<T>(keep: T -> bool, s: seq<T>)
    ensures |Filter(keep, s)| <= |s|
    ensures (forall x <- s :: keep(x)) ==> |Filter(keep, s)| == |s|
    ensures (forall x <- s :: !keep(x)) ==> Filter(keep, s) == []
  {
    if s != [] {
      FilterAll(keep, s[1..]);
    }
  }

  // The value of this rank, counted from zero: at most `rank` values lie below it, and more
  // than `rank` do not exceed it.
  ghost predicate HasRank(p: real, values: seq<real>, rank: nat) {
    |Filter((x: real) => x < p, values)| <= rank < |Filter((x: real) => x <= p, values)|
  }

  lemma FewBelow(s: seq<real>, rank: nat, p: real)
    requires IsAscending(s) && rank < |s| && p == s[rank]
    ensures |Filter((x: real) => x < p, s)| <= rank
  {
    var below := (x: real) => x < p;
    assert s == s[..rank] + s[rank..];
    FilterAppend(below, s[..rank], s[rank..]);
    FilterAll(below, s[..rank]);
    FilterAll(below, s[rank..]);
  }

  lemma MoreUpTo(s: seq<real>, rank: nat, p: real)
    requires IsAscending(s) && rank < |s| && p == s[rank]
    ensures |Filter((x: real) => x <= p, s)| > rank
  {
    var upTo := (x: real) => x <= p;
    assert s == s[..rank + 1] + s[rank + 1..];
    FilterAppend(upTo, s[..rank + 1], s[rank + 1..]);
    FilterAll(upTo, s[..rank + 1]);
  }

  lemma SortedHasRank(values: seq<real>, rank: nat)
    requires rank < |values|
    ensures rank < |Ascending(values)|
    ensures HasRank(Ascending(values)[rank], values, rank)
  {
    AscendingSorts(values, (x: real) => true);
    var p := Ascending(values)[rank];
    AscendingSorts(values, (x: real) => x < p);
    AscendingSorts(values, (x: real) => x <= p);
    FewBelow(Ascending(values), rank, p);
    MoreUpTo(Ascending(values), rank, p);
  }

  function Latencies(rows: seq<Row>): seq<real> { seq(|rows|, i requires 0 <= i < |rows| => rows[i].latency) }

  // The place of the ninety-fifth percentile.
  function P95(count: nat): (rank: nat)
    requires count > 0
    ensures rank < count
  {
    Min(count - 1, 95 * count / 100)
  }

  // ---- The evaluation ----------------------------------------------------------------------------

  function Proposed(rows: seq<Row>): int {
    if rows == [] then 0 else Proposed(rows[..|rows| - 1]) + rows[|rows| - 1].proposed
  }

  function Fabricated(rows: seq<Row>): int {
    if rows == [] then 0 else Fabricated(rows[..|rows| - 1]) + rows[|rows| - 1].fabricated
  }

  method Count(rows: seq<Row>) returns (proposed: int, fabricated: int)
    ensures proposed == Proposed(rows) && fabricated == Fabricated(rows)
  {
    proposed, fabricated := 0, 0;
    for i := 0 to |rows|
      invariant proposed == Proposed(rows[..i]) && fabricated == Fabricated(rows[..i])
    {
      assert rows[..i + 1][..i] == rows[..i];
      proposed, fabricated := proposed + rows[i].proposed, fabricated + rows[i].fabricated;
    }
    assert rows[..|rows|] == rows;
  }

  // `r` is the rate of `part` in `whole`, zero when there is nothing.
  predicate IsRate(r: real, part: int, whole: int) {
    if whole == 0 then r == 0.0 else r * whole as real == part as real
  }

  function Rate(part: int, whole: int): (r: real)
    ensures IsRate(r, part, whole)
  {
    if whole == 0 then 0.0 else part as real / whole as real
  }

  // A share of nothing is zero.
  function Share(part: nat, whole: nat): (r: real)
    requires part <= whole
    ensures IsShare(r, part, whole)
  {
    if whole == 0 then 0.0 else part as real / whole as real
  }

  method Slowest(rows: seq<Row>) returns (p95: real)
    requires rows != []
    ensures HasRank(p95, Latencies(rows), P95(|rows|))
  {
    var latencies := Latencies(rows);
    SortedHasRank(latencies, P95(|rows|));
    p95 := Ascending(latencies)[P95(|rows|)];
  }

  // What the scores say of the rows: the matched shares of the reports and of the labels, the
  // fabricated share of the proposals, the latency nineteen in twenty keep to, and a pass on
  // precision, fabrication rate and latency together.
  ghost predicate Describes(s: Scores, judged: seq<Judged>, rows: seq<Row>, tolerance: int)
    requires s.Scores? && rows != []
  {
    && AllFair(judged, rows, tolerance)
    && IsShare(s.precision, Sum(judged).matched, Sum(judged).actual)
    && IsShare(s.recall, Sum(judged).matched, Sum(judged).expected)
    && IsRate(s.fabrication, Fabricated(rows), Proposed(rows))
    && HasRank(s.p95, Latencies(rows), P95(|rows|))
    && (s.passed <==> s.precision >= 0.7 && s.fabrication < 0.03 && s.p95 < 480.0)
  }

  lemma NoRequests(rows: seq<Row>)
    requires rows == []
    ensures |set r | r in rows :: r.mr| == 0
  {
    assert (set r | r in rows :: r.mr) == {};
  }

  // At least fifty distinct merge requests, or no score at all.
  method Evaluate(rows: seq<Row>, tolerance: int) returns (s: Scores, judged: seq<Judged>)
    ensures s.TooFew? <==> |set r | r in rows :: r.mr| < 50
    ensures s.Scores? ==> rows != [] && Describes(s, judged, rows, tolerance)
  {
    if |set r | r in rows :: r.mr| < 50 {
      return TooFew, [];
    }
    if rows == [] {
      NoRequests(rows);
    }
    var proposed, fabricated := Count(rows);
    var t;
    judged, t := JudgeAll(rows, tolerance);
    var precision, recall, fabrication :=
      Share(t.matched, t.actual), Share(t.matched, t.expected), Rate(fabricated, proposed);
    var p95 := Slowest(rows);
    s := Scores(precision, recall, fabrication, p95, precision >= 0.7 && fabrication < 0.03 && p95 < 480.0);
  }
}
