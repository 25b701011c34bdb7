/** Sorting by a key, and the order of texts. */
module Orders {
  import opened Sequences

  // Texts in the order of their characters.
  predicate TextLe(a: string, b: string) {
    a == "" || (b != "" && (a[0] < b[0] || (a[0] == b[0] && TextLe(a[1..], b[1..]))))
  }

  lemma {:induction false} TextTotal(a: string, b: string)
    ensures TextLe(a, b) || TextLe(b, a)
    ensures TextLe(a, b) && TextLe(b, a) ==> a == b
  {
    if a != "" && b != "" && a[0] == b[0] {
      TextTotal(a[1..], b[1..]);
      assert a == [a[0]] + a[1..] && b == [b[0]] + b[1..];
    }
  }

  lemma {:induction false} TextTransitive(a: string, b: string, c: string)
    requires TextLe(a, b) && TextLe(b, c)
    ensures TextLe(a, c)
  {
    if a != "" && a[0] == b[0] == c[0] {
      TextTransitive(a[1..], b[1..], c[1..]);
    }
  }

  // Any two of the elements compare, and comparing is transitive.
  ghost predicate Linear<T>(le: (T, T) -> bool, s: seq<T>) {
    && (forall a <- s, b <- s :: le(a, b) || le(b, a))
    && (forall a <- s, b <- s, c <- s :: le(a, b) && le(b, c) ==> le(a, c))
  }

  ghost predicate Sorted<T>(le: (T, T) -> bool, s: seq<T>) {
    forall i, j | 0 <= i < j < |s| :: le(s[i], s[j])
  }

  function Insert<T>(le: (T, T) -> bool, x: T, s: seq<T>): seq<T> {
    if s == [] || le(x, s[0]) then [x] + s else [s[0]] + Insert(le, x, s[1..])
  }

  function Sort<T>(le: (T, T) -> bool, s: seq<T>): seq<T> {
    if s == [] then [] else Insert(le, s[0], Sort(le, s[1..]))
  }

  lemma {:induction false} InsertHolds<T>(le: (T, T) -> bool, x: T, s: seq<T>)
    ensures multiset(Insert(le, x, s)) == multiset{x} + multiset(s)
    ensures forall y <- Insert(le, x, s) :: y == x || y in s
  {
    if s != [] && !le(x, s[0]) {
      InsertHolds(le, x, s[1..]);
      assert s == [s[0]] + s[1..];
    }
  }

  lemma {:induction false} InsertSorts<T>(le: (T, T) -> bool, x: T, s: seq<T>)
    requires Linear(le, [x] + s) && Sorted(le, s)
    ensures Sorted(le, Insert(le, x, s))
  {
    var full := [x] + s;
    assert x in full && forall y <- s :: y in full;
    if s == [] || le(x, s[0]) {
      forall k | 0 <= k < |s| ensures le(x, s[k]) {
        assert k > 0 ==> le(s[0], s[k]);
      }
    } else {
      var rest := Insert(le, x, s[1..]);
      assert forall y <- [x] + s[1..] :: y in full;
      InsertSorts(le, x, s[1..]);
      InsertHolds(le, x, s[1..]);
      forall k | 0 <= k < |rest| ensures le(s[0], rest[k]) {
        assert rest[k] in rest;
      }
    }
  }

  lemma {:induction false} SortHolds<T>(le: (T, T) -> bool, s: seq<T>)
    ensures multiset(Sort(le, s)) == multiset(s) && |Sort(le, s)| == |s|
  {
    if s != [] {
      SortHolds(le, s[1..]);
      InsertHolds(le, s[0], Sort(le, s[1..]));
      assert s == [s[0]] + s[1..];
    }
    assert |Sort(le, s)| == |multiset(Sort(le, s))| && |s| == |multiset(s)|;
  }

  lemma SortMembers<T>(le: (T, T) -> bool, s: seq<T>)
    ensures forall x <- Sort(le, s) :: x in s
    ensures forall x <- s :: x in Sort(le, s)
  {
    SortHolds(le, s);
    forall x <- Sort(le, s) ensures x in s {
      assert x in multiset(Sort(le, s));
    }
    forall x <- s ensures x in Sort(le, s) {
      assert x in multiset(s);
    }
  }

  lemma {:induction false} SortSorts<T>(le: (T, T) -> bool, s: seq<T>)
    requires Linear(le, s)
    ensures Sorted(le, Sort(le, s))
  {
    if s != [] {
      SortMembers(le, s[1..]);
      SortSorts(le, s[1..]);
      SamePlaces(s, Sort(le, s[1..]));
      InsertSorts(le, s[0], Sort(le, s[1..]));
    }
  }

  lemma SamePlaces<T>(s: seq<T>, rest: seq<T>)
    requires s != [] && forall x <- rest :: x in s[1..]
    ensures forall x <- [s[0]] + rest :: x in s
  {
    forall x <- [s[0]] + rest ensures x in s {
      assert x == s[0] || x in rest;
    }
  }

  // The order ties all elements that have the property.
  ghost predicate Ties<T>(le: (T, T) -> bool, s: seq<T>, keep: T -> bool) {
    forall a <- s, b <- s :: keep(a) && keep(b) ==> le(a, b)
  }

  lemma {:induction false} InsertFilters<T>(le: (T, T) -> bool, x: T, s: seq<T>, keep: T -> bool)
    ensures |Filter(keep, Insert(le, x, s))| == |Filter(keep, [x] + s)|
    ensures Ties(le, [x] + s, keep) ==> Filter(keep, Insert(le, x, s)) == Filter(keep, [x] + s)
  {
    assert ([x] + s)[1..] == s;
    if s != [] && !le(x, s[0]) {
      var rest := Insert(le, x, s[1..]);
      InsertFilters(le, x, s[1..], keep);
      assert forall y <- [x] + s[1..] :: y in [x] + s;
      assert x in [x] + s && s[0] in [x] + s;
      assert ([x] + s[1..])[1..] == s[1..] && ([s[0]] + rest)[1..] == rest;
    }
  }

  /** Sorting keeps how many elements have a property, and where the order ties all that have
      it, also their sequence. */
  lemma {:induction false} SortFilters<T>(le: (T, T) -> bool, s: seq<T>, keep: T -> bool)
    requires Linear(le, s)
    ensures |Filter(keep, Sort(le, s))| == |Filter(keep, s)|
    ensures Ties(le, s, keep) ==> Filter(keep, Sort(le, s)) == Filter(keep, s)
  {
    if s != [] {
      var rest := Sort(le, s[1..]);
      SortFilters(le, s[1..], keep);
      SortMembers(le, s[1..]);
      SamePlaces(s, rest);
      InsertFilters(le, s[0], rest, keep);
      assert ([s[0]] + rest)[1..] == rest;
    }
  }

  ghost predicate Distinct<T>(s: seq<T>) { forall i, j | 0 <= i < j < |s| :: s[i] != s[j] }

  lemma {:induction false} DistinctOnce<T>(s: seq<T>, x: T)
    requires Distinct(s)
    ensures multiset(s)[x] <= 1
  {
    if s != [] {
      assert s == [s[0]] + s[1..];
      DistinctOnce(s[1..], x);
      assert s[0] == x ==> x !in s[1..];
    }
  }

  lemma DistinctByCount<T>(a: seq<T>, b: seq<T>)
    requires Distinct(a) && multiset(a) == multiset(b)
    ensures Distinct(b)
  {
    forall i, j | 0 <= i < j < |b| ensures b[i] != b[j] {
      DistinctOnce(a, b[j]);
      assert b == b[..j] + b[j..];
      assert b[i] in b[..j] && b[j] in b[j..];
      assert multiset(b)[b[j]] == multiset(b[..j])[b[j]] + multiset(b[j..])[b[j]];
    }
  }
}
