// Sorting by a comparison, as the library sort leaves a slice: some permutation of the
// input in which no later element comes before an earlier one. When the comparison is a
// strict total order, that permutation is unique for distinct elements.
module Sorting {

  ghost predicate StrictTotalOrder<T(!new)>(before: (T, T) -> bool) {
    (forall a :: !before(a, a))
    && (forall a, b, c :: before(a, b) && before(b, c) ==> before(a, c))
    && (forall a, b :: a == b || before(a, b) || before(b, a))
  }

  ghost predicate Sorted<T>(before: (T, T) -> bool, s: seq<T>) {
    forall i, j :: 0 <= i < j < |s| ==> !before(s[j], s[i])
  }

  // Sorted without ties.
  ghost predicate Ranked<T>(before: (T, T) -> bool, s: seq<T>) {
    forall i, j :: 0 <= i < j < |s| ==> before(s[i], s[j])
  }

  function Insert<T>(before: (T, T) -> bool, x: T, s: seq<T>): seq<T> {
    if s != [] && before(s[0], x) then [s[0]] + Insert(before, x, s[1..]) else [x] + s
  }

  function Sort<T>(before: (T, T) -> bool, s: seq<T>): seq<T> {
    if s == [] then [] else Insert(before, s[0], Sort(before, s[1..]))
  }

  lemma {:induction false} InsertPermutes<T>(before: (T, T) -> bool, x: T, s: seq<T>)
    ensures multiset(Insert(before, x, s)) == multiset(s) + multiset{x}
  {
    if s != [] && before(s[0], x) {
      InsertPermutes(before, x, s[1..]);
      assert s == [s[0]] + s[1..];
    }
  }

  lemma {:induction false} InsertSorts<T(!new)>(before: (T, T) -> bool, x: T, s: seq<T>)
    requires StrictTotalOrder(before) && Sorted(before, s)
    ensures Sorted(before, Insert(before, x, s))
  {
    if s != [] && before(s[0], x) {
      var r := Insert(before, x, s[1..]);
      InsertSorts(before, x, s[1..]);
      InsertPermutes(before, x, s[1..]);
      forall j | 0 <= j < |r| ensures !before(r[j], s[0]) {
        assert r[j] in multiset(r);
        assert r[j] == x || r[j] in s[1..];
      }
    }
  }

  lemma {:induction false} SortSorts<T(!new)>(before: (T, T) -> bool, s: seq<T>)
    requires StrictTotalOrder(before)
    ensures Sorted(before, Sort(before, s)) && multiset(Sort(before, s)) == multiset(s)
  {
    if s != [] {
      SortSorts(before, s[1..]);
      InsertSorts(before, s[0], Sort(before, s[1..]));
      InsertPermutes(before, s[0], Sort(before, s[1..]));
      assert s == [s[0]] + s[1..];
    }
  }

  // Sorting what is already in order changes nothing.
  lemma {:induction false} SortKeepsSorted<T>(before: (T, T) -> bool, s: seq<T>)
    requires Sorted(before, s)
    ensures Sort(before, s) == s
  {
    if s != [] {
      SortKeepsSorted(before, s[1..]);
      assert s == [s[0]] + s[1..];
    }
  }

  ghost predicate Distinct<T>(s: seq<T>) {
    forall i, j :: 0 <= i < j < |s| ==> s[i] != s[j]
  }

  ghost function Elements<T>(s: seq<T>): set<T> {
    set x | x in s
  }

  lemma {:induction false} DistinctIsSingle<T>(s: seq<T>)
    ensures Distinct(s) <==> forall x :: x in s ==> multiset(s)[x] == 1
  {
    if s != [] {
      var t, x := s[..|s| - 1], s[|s| - 1];
      assert s == t + [x];
      DistinctIsSingle(t);
      assert Distinct(s) <==> Distinct(t) && x !in t;
      assert multiset(s) == multiset(t) + multiset{x};
      if forall y :: y in s ==> multiset(s)[y] == 1 {
        assert multiset(s)[x] == 1;
        forall y | y in t ensures multiset(t)[y] == 1 {
          assert y in s;
        }
      }
    }
  }

  // Sorting distinct elements ranks them.
  lemma {:induction false} SortRanks<T(!new)>(before: (T, T) -> bool, s: seq<T>)
    requires StrictTotalOrder(before) && Distinct(s)
    ensures Ranked(before, Sort(before, s)) && Elements(Sort(before, s)) == Elements(s) && |Sort(before, s)| == |s|
  {
    var r := Sort(before, s);
    SortSorts(before, s);
    DistinctIsSingle(s);
    DistinctIsSingle(r);
    assert |multiset(r)| == |r|;
    forall x ensures x in r <==> x in s {
      assert x in r <==> x in multiset(r);
      assert x in s <==> x in multiset(s);
    }
  }

  lemma {:induction false} SubsetSize<T>(a: set<T>, b: set<T>)
    requires a <= b
    ensures |a| <= |b|
  {
    assert b == a + (b - a);
  }

  lemma {:induction false} ElementsOfSome<T>(s: seq<T>)
    ensures Elements(s) == {} <==> s == []
  {
    if s != [] {
      assert s[0] in Elements(s);
    }
  }

  // A ranking of a set is unique.
  lemma {:induction false} RankingUnique<T(!new)>(before: (T, T) -> bool, a: seq<T>, b: seq<T>)
    requires StrictTotalOrder(before) && Ranked(before, a) && Ranked(before, b) && Elements(a) == Elements(b)
    ensures a == b
  {
    if a == [] {
      ElementsOfSome(b);
    } else {
      assert a[0] in Elements(b);
      assert b[0] in Elements(a);
      assert a[0] == b[0];
      forall x ensures x in a[1..] <==> x in b[1..] {
        assert x in a[1..] <==> x in a && x != a[0];
        assert x in b[1..] <==> x in b && x != b[0];
        assert x in a <==> x in Elements(a);
        assert x in b <==> x in Elements(b);
      }
      RankingUnique(before, a[1..], b[1..]);
      assert a == [a[0]] + a[1..] && b == [b[0]] + b[1..];
    }
  }

  // The elements of a finite set, in some order.
  method Listing<T(==)>(all: set<T>) returns (s: seq<T>)
    ensures Distinct(s) && forall x :: x in s <==> x in all
  {
    s := [];
    var left := all;
    while left != {}
      invariant left <= all && Distinct(s) && forall x :: x in s <==> x in all && x !in left
      decreases left
    {
      var x :| x in left;
      s := s + [x];
      left := left - {x};
    }
  }

  // A finite set can be listed.
  lemma {:induction false} ListingExists<T>(all: set<T>) returns (s: seq<T>)
    ensures Distinct(s) && Elements(s) == all
  {
    s := [];
    var left := all;
    while left != {}
      invariant left <= all && Distinct(s) && forall x :: x in s <==> x in all && x !in left
      decreases left
    {
      var x :| x in left;
      s := s + [x];
      left := left - {x};
    }
  }

  // Leaving out elements behind the first m does not change the first m.
  lemma {:induction false} FrontSurvives<T(!new)>(before: (T, T) -> bool, full: seq<T>, part: seq<T>, m: nat)
    requires StrictTotalOrder(before) && Ranked(before, full) && Ranked(before, part) && m <= |full|
    requires Elements(part) <= Elements(full) && forall i :: 0 <= i < m ==> full[i] in part
    ensures m <= |part| && part[..m] == full[..m]
  {
    if m > 0 {
      assert full[0] in part;
      assert part[0] in Elements(full);
      assert part[0] == full[0];
      forall x | x in part[1..] ensures x in full[1..] {
        assert x in Elements(full) && x != full[0];
      }
      forall i | 0 <= i < m - 1 ensures full[1..][i] in part[1..] {
        assert full[i + 1] in part && full[i + 1] != part[0];
      }
      FrontSurvives(before, full[1..], part[1..], m - 1);
      assert part == [part[0]] + part[1..] && full == [full[0]] + full[1..];
    }
  }
}
