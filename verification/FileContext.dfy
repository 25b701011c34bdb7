/** What a unit is told about how much of a file it holds. */
module FileContext {
  import opened Sequences
  import opened Diffs
  import opened Partition

  // The new line numbers of the displayed lines, as their column reads.
  function NumbersIn(items: seq<Item>): seq<nat> {
    if items == [] then []
    else if items[0].Line? && !items[0].line.kind.Removed? && items[0].line.newLine.Some?
      && items[0].line.newLine.value >= 0
    then [items[0].line.newLine.value as nat] + NumbersIn(items[1..])
    else NumbersIn(items[1..])
  }

  datatype Context = Context(
    totalLines: Option<int>,
    ranges: seq<(nat, nat)>,
    completeFile: bool,
    hasMoreBefore: bool,
    hasMoreAfter: Option<bool>,
    index: nat,
    count: nat)

  // The numbers from `first` to `last`.
  function Between(first: nat, last: nat): seq<nat>
    decreases last + 1 - first
  {
    if first > last then [] else [first] + Between(first + 1, last)
  }

  function Spelled(ranges: seq<(nat, nat)>): seq<nat> {
    if ranges == [] then [] else Between(ranges[0].0, ranges[0].1) + Spelled(ranges[1..])
  }

  // No range is empty or continues the one before.
  predicate Maximal(ranges: seq<(nat, nat)>) {
    (forall r <- ranges :: r.0 <= r.1) && forall i | 0 < i < |ranges| :: ranges[i].0 != ranges[i - 1].1 + 1
  }

  lemma {:induction false} BetweenGrows(first: nat, last: nat)
    requires first <= last + 1
    ensures Between(first, last + 1) == Between(first, last) + [last + 1]
    decreases last + 1 - first
  {
    if first <= last {
      BetweenGrows(first + 1, last);
    }
  }

  lemma {:induction false} SpelledAppend(before: seq<(nat, nat)>, last: (nat, nat))
    ensures Spelled(before + [last]) == Spelled(before) + Between(last.0, last.1)
  {
    if before == [] {
      assert [last][1..] == [];
    } else {
      assert (before + [last])[1..] == before[1..] + [last];
      SpelledAppend(before[1..], last);
      Associative(Between(before[0].0, before[0].1), Spelled(before[1..]), Between(last.0, last.1));
    }
  }

  lemma SpelledExtended(before: seq<(nat, nat)>, first: nat, last: nat)
    requires first <= last
    ensures Spelled(before + [(first, last + 1)]) == Spelled(before + [(first, last)]) + [last + 1]
  {
    SpelledAppend(before, (first, last));
    SpelledAppend(before, (first, last + 1));
    BetweenGrows(first, last);
    Associative(Spelled(before), Between(first, last), [last + 1]);
  }

  lemma SpelledStarted(ranges: seq<(nat, nat)>, n: nat)
    ensures Spelled(ranges + [(n, n)]) == Spelled(ranges) + [n]
  {
    SpelledAppend(ranges, (n, n));
    assert Between(n, n) == [n] + Between(n + 1, n) == [n];
  }

  lemma {:induction false} BetweenLength(first: nat, last: nat)
    ensures |Between(first, last)| == (if first > last then 0 else last + 1 - first)
    ensures forall k | 0 <= k < |Between(first, last)| :: Between(first, last)[k] == first + k
    decreases last + 1 - first
  {
    if first <= last {
      BetweenLength(first + 1, last);
    }
  }

  // Between two ranges the numbers jump.
  lemma Jump(before: seq<(nat, nat)>, a: (nat, nat), b: (nat, nat)) returns (k: nat)
    requires a.0 <= a.1 && b.0 <= b.1 && b.0 != a.1 + 1
    ensures var all := Spelled((before + [a]) + [b]); k + 1 < |all| && all[k + 1] != all[k] + 1
  {
    SpelledAppend(before + [a], b);
    SpelledAppend(before, a);
    BetweenLength(a.0, a.1);
    BetweenLength(b.0, b.1);
    k := |Spelled(before)| + (a.1 - a.0);
  }

  lemma OneSpelled(range: (nat, nat))
    ensures Spelled([range]) == Between(range.0, range.1)
  {
    assert [range][1..] == [];
  }

  lemma SeveralRangesJump(ranges: seq<(nat, nat)>, total: nat)
    requires Maximal(ranges) && |ranges| > 1
    ensures Spelled(ranges) != Between(1, total)
  {
    var top := |ranges| - 1;
    assert ranges == (ranges[..top - 1] + [ranges[top - 1]]) + [ranges[top]];
    var k := Jump(ranges[..top - 1], ranges[top - 1], ranges[top]);
    BetweenLength(1, total);
    assert k + 1 < |Between(1, total)| ==> Between(1, total)[k + 1] == Between(1, total)[k] + 1;
  }

  // Ranges that join up are one range.
  lemma OneRange(ranges: seq<(nat, nat)>, total: nat)
    requires Maximal(ranges) && total >= 1
    ensures Spelled(ranges) == Between(1, total) <==> ranges == [(1, total)]
  {
    BetweenLength(1, total);
    if |ranges| > 1 {
      SeveralRangesJump(ranges, total);
    } else if |ranges| == 1 {
      var (first, last) := ranges[0];
      assert ranges == [(first, last)];
      OneSpelled((first, last));
      OneSpelled((1, total));
      BetweenLength(first, last);
      assert Between(first, last)[0] == first && Between(1, total)[0] == 1;
    }
  }

  lemma LastExtended(ranges: seq<(nat, nat)>, n: nat)
    requires ranges != [] && Maximal(ranges) && n == ranges[|ranges| - 1].1 + 1
    ensures var next := ranges[|ranges| - 1 := (ranges[|ranges| - 1].0, n)];
            Spelled(next) == Spelled(ranges) + [n] && Maximal(next)
  {
    var before, last := ranges[..|ranges| - 1], ranges[|ranges| - 1];
    SpelledExtended(before, last.0, last.1);
    assert ranges == before + [(last.0, last.1)];
    assert ranges[|ranges| - 1 := (last.0, n)] == before + [(last.0, n)];
    ExtendedIsMaximal(ranges, n);
  }

  lemma ExtendedIsMaximal(ranges: seq<(nat, nat)>, n: nat)
    requires ranges != [] && Maximal(ranges) && n == ranges[|ranges| - 1].1 + 1
    ensures Maximal(ranges[|ranges| - 1 := (ranges[|ranges| - 1].0, n)])
  {
  }

  lemma StartedIsMaximal(ranges: seq<(nat, nat)>, n: nat)
    requires Maximal(ranges) && (ranges != [] ==> n != ranges[|ranges| - 1].1 + 1)
    ensures Maximal(ranges + [(n, n)])
  {
  }

  // The ranges after one more number.
  function Extended(ranges: seq<(nat, nat)>, n: nat): seq<(nat, nat)> {
    var top := |ranges| - 1;
    if ranges != [] && n == ranges[top].1 + 1 then ranges[top := (ranges[top].0, n)] else ranges + [(n, n)]
  }

  function RangesFrom(ranges: seq<(nat, nat)>, numbers: seq<nat>): seq<(nat, nat)>
    decreases numbers
  {
    if numbers == [] then ranges else RangesFrom(Extended(ranges, numbers[0]), numbers[1..])
  }

  method RangesOf(numbers: seq<nat>) returns (ranges: seq<(nat, nat)>)
    ensures ranges == RangesFrom([], numbers)
  {
    ranges := [];
    for i := 0 to |numbers|
      invariant RangesFrom(ranges, numbers[i..]) == RangesFrom([], numbers)
    {
      var n, top := numbers[i], |ranges| - 1;
      assert numbers[i..][1..] == numbers[i + 1..];
      if ranges != [] && n == ranges[top].1 + 1 {
        ranges := ranges[top := (ranges[top].0, n)];
      } else {
        ranges := ranges + [(n, n)];
      }
    }
  }

  // As few ranges as possible that spell out the numbers.
  lemma {:induction false} RangesSpell(ranges: seq<(nat, nat)>, numbers: seq<nat>)
    requires Maximal(ranges)
    ensures Spelled(RangesFrom(ranges, numbers)) == Spelled(ranges) + numbers && Maximal(RangesFrom(ranges, numbers))
    decreases numbers
  {
    if numbers == [] {
      assert Spelled(ranges) + [] == Spelled(ranges);
    } else {
      OneMoreSpelled(ranges, numbers[0]);
      RangesSpell(Extended(ranges, numbers[0]), numbers[1..]);
      Associative(Spelled(ranges), [numbers[0]], numbers[1..]);
      assert [numbers[0]] + numbers[1..] == numbers;
    }
  }

  lemma OneMoreSpelled(ranges: seq<(nat, nat)>, n: nat)
    requires Maximal(ranges)
    ensures Spelled(Extended(ranges, n)) == Spelled(ranges) + [n] && Maximal(Extended(ranges, n))
  {
    if ranges != [] && n == ranges[|ranges| - 1].1 + 1 {
      LastExtended(ranges, n);
    } else {
      SpelledStarted(ranges, n);
      StartedIsMaximal(ranges, n);
    }
  }

  // Every line of the file is displayed, from first to last.
  predicate IsWhole(file: ChangedFile, numbers: seq<nat>) {
    file.totalLines.Some? && file.totalLines.value >= 1 && numbers == Between(1, file.totalLines.value)
  }

  function ContextOf(file: ChangedFile, items: seq<Item>, omitted: bool, index: nat, count: nat): Context {
    var numbers := NumbersIn(items);
    var ranges := RangesFrom([], numbers);
    var total := file.totalLines;
    Context(total, ranges, total.Some? && total.value >= 1 && ranges == [(1, total.value as nat)] && !omitted,
            numbers == [] || numbers[0] > 1,
            if total.None? then None else Some(numbers == [] || numbers[|numbers| - 1] < total.value),
            index, count)
  }

  /** The supplied ranges spell out exactly the displayed numbers in order, and as few ranges as
      possible; a file is complete exactly when its lines are displayed from first to last and
      nothing is omitted. */
  lemma ContextTells(file: ChangedFile, items: seq<Item>, omitted: bool, index: nat, count: nat)
    ensures var c := ContextOf(file, items, omitted, index, count);
            && Spelled(c.ranges) == NumbersIn(items) && Maximal(c.ranges)
            && (c.completeFile <==> !omitted && IsWhole(file, NumbersIn(items)))
  {
    var numbers := NumbersIn(items);
    RangesSpell([], numbers);
    assert [] + numbers == numbers;
    if file.totalLines.Some? && file.totalLines.value >= 1 {
      OneRange(RangesFrom([], numbers), file.totalLines.value);
    }
  }

  method ContextFor(file: ChangedFile, items: seq<Item>, omitted: bool, index: nat, count: nat) returns (c: Context)
    ensures c == ContextOf(file, items, omitted, index, count)
  {
    var numbers := NumbersIn(items);
    var ranges := RangesOf(numbers);
    var total := file.totalLines;
    var complete := total.Some? && total.value >= 1 && ranges == [(1, total.value as nat)] && !omitted;
    var after := if total.None? then None else Some(numbers == [] || numbers[|numbers| - 1] < total.value);
    c := Context(total, ranges, complete, numbers == [] || numbers[0] > 1, after, index, count);
  }
}
