// What a least-recently-used cache is: entries by recency, and how capacities compare.
module Recency {
  import opened Basics

  // A cached value: the cache takes any value, the second level only strings.
  datatype Value = Str(text: string) | Other(id: int)

  datatype Pair = Pair(key: string, value: Value)

  // Most recently used first; one entry for each key.
  type Entries = seq<Pair>

  predicate OneEach(s: Entries) {
    forall i, j :: 0 <= i < j < |s| ==> s[i].key != s[j].key
  }

  predicate Has(s: Entries, key: string) {
    s != [] && (s[0].key == key || Has(s[1..], key))
  }

  function Lookup(s: Entries, key: string): (r: Option<Value>)
    ensures r.Some? <==> Has(s, key)
  {
    if s == [] then None else if s[0].key == key then Some(s[0].value) else Lookup(s[1..], key)
  }

  function Without(s: Entries, key: string): Entries {
    if s == [] then [] else if s[0].key == key then Without(s[1..], key) else [s[0]] + Without(s[1..], key)
  }

  // A hit is moved to the front.
  function AfterGet(s: Entries, key: string): Entries {
    if Has(s, key) then [Pair(key, Lookup(s, key).value)] + Without(s, key) else s
  }

  // A written entry is at the front; what no longer fits falls off the back.
  function AfterSet(s: Entries, capacity: nat, key: string, value: Value): Entries {
    var t := [Pair(key, value)] + Without(s, key);
    if |t| > capacity then t[..|t| - 1] else t
  }

  function AfterDelete(s: Entries, key: string): Entries {
    Without(s, key)
  }

  datatype Op = Get(key: string) | Set(key: string, value: Value) | Delete(key: string)

  function After(s: Entries, capacity: nat, op: Op): Entries {
    match op
    case Get(k) => AfterGet(s, k)
    case Set(k, v) => AfterSet(s, capacity, k, v)
    case Delete(k) => AfterDelete(s, k)
  }

  function Run(capacity: nat, ops: seq<Op>): Entries {
    if ops == [] then [] else After(Run(capacity, ops[..|ops| - 1]), capacity, ops[|ops| - 1])
  }

  // ---------- lookups ----------

  lemma {:induction false} HasSays(s: Entries, key: string)
    ensures Has(s, key) <==> exists i :: 0 <= i < |s| && s[i].key == key
  {
    if s != [] && s[0].key != key {
      HasSays(s[1..], key);
      if i :| 0 <= i < |s| && s[i].key == key {
        assert s[1..][i - 1].key == key;
      }
    }
  }

  lemma {:induction false} LookupAt(s: Entries, i: nat)
    requires OneEach(s) && i < |s|
    ensures Lookup(s, s[i].key) == Some(s[i].value)
  {
    if i > 0 {
      LookupAt(s[1..], i - 1);
    }
  }

  lemma {:induction false} WithoutSays(s: Entries, key: string, other: string)
    ensures !Has(Without(s, key), key)
    ensures other != key ==> Lookup(Without(s, key), other) == Lookup(s, other)
    ensures |Without(s, key)| <= |s|
    ensures !Has(s, key) ==> Without(s, key) == s
  {
    if s != [] {
      WithoutSays(s[1..], key, other);
      assert s == [s[0]] + s[1..];
    }
  }

  lemma {:induction false} WithoutOneEach(s: Entries, key: string)
    requires OneEach(s)
    ensures OneEach(Without(s, key)) && |Without(s, key)| == if Has(s, key) then |s| - 1 else |s|
  {
    if s != [] {
      var rest := s[1..];
      WithoutOneEach(rest, key);
      if s[0].key == key {
        HasSays(rest, key);
        WithoutSays(rest, key, key);
      } else {
        WithoutSays(rest, key, s[0].key);
        HasSays(rest, s[0].key);
        HasSays(Without(rest, key), s[0].key);
      }
    }
  }

  // Taking out one entry by its place takes out its key.
  lemma {:induction false} WithoutAt(s: Entries, i: nat)
    requires OneEach(s) && i < |s|
    ensures Without(s, s[i].key) == s[..i] + s[i + 1..]
  {
    if i == 0 {
      HasSays(s[1..], s[0].key);
      WithoutSays(s[1..], s[0].key, s[0].key);
    } else {
      WithoutAt(s[1..], i - 1);
      assert s[..i] + s[i + 1..] == [s[0]] + (s[1..][..i - 1] + s[1..][i..]);
    }
  }

  lemma {:induction false} LookupFront(s: Entries, n: nat, key: string)
    requires n <= |s|
    ensures Lookup(s[..n], key).Some? ==> Lookup(s, key) == Lookup(s[..n], key)
  {
    if n > 0 && s[0].key != key {
      assert s[..n][1..] == s[1..][..n - 1];
      LookupFront(s[1..], n - 1, key);
    }
  }

  // ---------- what every operation keeps ----------

  ghost predicate Good(s: Entries, capacity: nat) {
    OneEach(s) && |s| <= capacity
  }

  lemma {:induction false} FrontOneEach(p: Pair, s: Entries)
    requires OneEach(s) && !Has(s, p.key)
    ensures OneEach([p] + s)
  {
    HasSays(s, p.key);
  }

  lemma {:induction false} AfterIsGood(s: Entries, capacity: nat, op: Op)
    requires capacity >= 1 && Good(s, capacity)
    ensures Good(After(s, capacity, op), capacity)
  {
    WithoutOneEach(s, op.key);
    WithoutSays(s, op.key, op.key);
    if op.Get? && Has(s, op.key) {
      FrontOneEach(Pair(op.key, Lookup(s, op.key).value), Without(s, op.key));
    }
    if op.Set? {
      FrontOneEach(Pair(op.key, op.value), Without(s, op.key));
    }
  }

  lemma {:induction false} RunIsGood(capacity: nat, ops: seq<Op>)
    requires capacity >= 1
    ensures Good(Run(capacity, ops), capacity)
  {
    if ops != [] {
      RunIsGood(capacity, ops[..|ops| - 1]);
      AfterIsGood(Run(capacity, ops[..|ops| - 1]), capacity, ops[|ops| - 1]);
    }
  }

  // ---------- a smaller cache inside a larger one ----------

  // The entries of `a`, in order, among those of `b`.
  predicate Within(a: Entries, b: Entries)
    decreases |b|
  {
    a == [] || (b != [] && ((a[0] == b[0] && Within(a[1..], b[1..])) || Within(a, b[1..])))
  }

  lemma {:induction false} WithinRefl(a: Entries)
    ensures Within(a, a)
  {
    if a != [] {
      WithinRefl(a[1..]);
    }
  }

  lemma {:induction false} WithinSkip(a: Entries, b: Entries)
    requires a != [] && Within(a, b)
    ensures Within(a[1..], b)
    decreases |b|
  {
    if a[0] == b[0] && Within(a[1..], b[1..]) {
      WithinLonger(a[1..], b);
    } else {
      WithinSkip(a, b[1..]);
      WithinLonger(a[1..], b);
    }
  }

  lemma {:induction false} WithinLonger(a: Entries, b: Entries)
    requires b != [] && Within(a, b[1..])
    ensures Within(a, b)
  {
  }

  lemma {:induction false} WithinTransitive(a: Entries, b: Entries, c: Entries)
    requires Within(a, b) && Within(b, c)
    ensures Within(a, c)
    decreases |b| + |c|
  {
    if a != [] {
      if b[0] == c[0] && Within(b[1..], c[1..]) {
        if a[0] == b[0] && Within(a[1..], b[1..]) {
          WithinTransitive(a[1..], b[1..], c[1..]);
        } else {
          WithinTransitive(a, b[1..], c[1..]);
        }
      } else {
        WithinTransitive(a, b, c[1..]);
      }
    }
  }

  lemma {:induction false} WithinLookup(a: Entries, b: Entries, key: string)
    requires Within(a, b) && OneEach(b) && Has(a, key)
    ensures Lookup(b, key) == Lookup(a, key)
    decreases |b|
  {
    if a[0] == b[0] && Within(a[1..], b[1..]) {
      if a[0].key != key {
        WithinLookup(a[1..], b[1..], key);
      }
    } else {
      WithinLookup(a, b[1..], key);
      HasSays(b[1..], key);
    }
  }

  lemma {:induction false} WithinWithout(a: Entries, b: Entries, key: string)
    requires Within(a, b)
    ensures Within(Without(a, key), Without(b, key))
    decreases |b|
  {
    if a != [] {
      if a[0] == b[0] && Within(a[1..], b[1..]) {
        WithinWithout(a[1..], b[1..], key);
        if a[0].key != key {
          WithinSameFront(a[0], Without(a[1..], key), Without(b[1..], key));
        }
      } else {
        WithinWithout(a, b[1..], key);
        if b[0].key != key {
          WithinOneMore(b[0], Without(a, key), Without(b[1..], key));
        }
      }
    }
  }

  lemma {:induction false} WithinSameFront(p: Pair, a: Entries, b: Entries)
    requires Within(a, b)
    ensures Within([p] + a, [p] + b)
  {
    assert ([p] + a)[1..] == a && ([p] + b)[1..] == b;
  }

  lemma {:induction false} WithinOneMore(p: Pair, a: Entries, b: Entries)
    requires Within(a, b)
    ensures Within(a, [p] + b)
  {
    assert ([p] + b)[1..] == b;
  }

  lemma {:induction false} WithinSize(a: Entries, b: Entries)
    requires Within(a, b)
    ensures |a| <= |b| && (|a| == |b| ==> a == b)
    decreases |b|
  {
    if a != [] {
      if a[0] == b[0] && Within(a[1..], b[1..]) {
        WithinSize(a[1..], b[1..]);
        assert a == [a[0]] + a[1..] && b == [b[0]] + b[1..];
      } else {
        WithinSize(a, b[1..]);
      }
    }
  }

  // Dropping the last entry of both, or of the longer one if it is longer by more.
  lemma {:induction false} WithinDropLast(a: Entries, b: Entries)
    requires Within(a, b) && a != []
    ensures Within(a[..|a| - 1], b[..|b| - 1])
    decreases |b|
  {
    if a[0] == b[0] && Within(a[1..], b[1..]) {
      if |a| > 1 {
        WithinDropLast(a[1..], b[1..]);
        assert a[..|a| - 1] == [a[0]] + a[1..][..|a| - 2] && b[..|b| - 1] == [b[0]] + b[1..][..|b| - 2];
        WithinSameFront(a[0], a[1..][..|a| - 2], b[1..][..|b| - 2]);
      }
    } else {
      WithinDropLast(a, b[1..]);
      assert b[..|b| - 1] == [b[0]] + b[1..][..|b| - 2];
      WithinOneMore(b[0], a[..|a| - 1], b[1..][..|b| - 2]);
    }
  }

  lemma {:induction false} WithinDropFront(a: Entries, b: Entries)
    requires Within(a, b) && a != []
    ensures Within(a[..|a| - 1], b)
    decreases |b|
  {
    if a[0] == b[0] && Within(a[1..], b[1..]) {
      if |a| > 1 {
        WithinDropFront(a[1..], b[1..]);
        assert a[..|a| - 1] == [a[0]] + a[1..][..|a| - 2] && b == [b[0]] + b[1..];
        WithinSameFront(a[0], a[1..][..|a| - 2], b[1..]);
      }
    } else {
      WithinDropFront(a, b[1..]);
      assert b == [b[0]] + b[1..];
      WithinOneMore(b[0], a[..|a| - 1], b[1..]);
    }
  }

  // The caches of capacity c and c + 1 under the same operations: the small one inside the
  // large one, which has at most one entry more.
  ghost predicate Nested(a: Entries, b: Entries, c: nat) {
    Good(a, c) && Good(b, c + 1) && Within(a, b) && |b| <= |a| + 1
  }

  lemma {:induction false} NestedGet(a: Entries, b: Entries, c: nat, key: string)
    requires c >= 1 && Nested(a, b, c)
    ensures Nested(AfterGet(a, key), AfterGet(b, key), c)
  {
    AfterIsGood(a, c, Get(key));
    AfterIsGood(b, c + 1, Get(key));
    WithinWithout(a, b, key);
    WithoutOneEach(a, key);
    WithoutOneEach(b, key);
    WithoutSays(a, key, key);
    if Has(a, key) {
      WithinLookup(a, b, key);
      WithinSameFront(Pair(key, Lookup(a, key).value), Without(a, key), Without(b, key));
    } else if Has(b, key) {
      WithinOneMore(Pair(key, Lookup(b, key).value), a, Without(b, key));
    }
  }

  lemma {:induction false} NestedDelete(a: Entries, b: Entries, c: nat, key: string)
    requires c >= 1 && Nested(a, b, c)
    ensures Nested(AfterDelete(a, key), AfterDelete(b, key), c)
  {
    AfterIsGood(a, c, Delete(key));
    AfterIsGood(b, c + 1, Delete(key));
    WithinWithout(a, b, key);
    WithoutOneEach(a, key);
    WithoutOneEach(b, key);
    if Has(a, key) {
      WithinLookup(a, b, key);
    }
  }

  lemma {:induction false} NestedSet(a: Entries, b: Entries, c: nat, key: string, value: Value)
    requires c >= 1 && Nested(a, b, c)
    ensures Nested(AfterSet(a, c, key, value), AfterSet(b, c + 1, key, value), c)
  {
    AfterIsGood(a, c, Set(key, value));
    AfterIsGood(b, c + 1, Set(key, value));
    WithinWithout(a, b, key);
    WithoutOneEach(a, key);
    WithoutOneEach(b, key);
    if Has(a, key) {
      WithinLookup(a, b, key);
    }
    WithinSize(a, b);
    var s, t := [Pair(key, value)] + Without(a, key), [Pair(key, value)] + Without(b, key);
    WithinSameFront(Pair(key, value), Without(a, key), Without(b, key));
    if |s| > c && |t| > c + 1 {
      WithinDropLast(s, t);
    } else if |s| > c {
      WithinDropFront(s, t);
    }
  }

  lemma {:induction false} RunsNest(c: nat, ops: seq<Op>)
    requires c >= 1
    ensures Nested(Run(c, ops), Run(c + 1, ops), c)
  {
    if ops != [] {
      var before, op := ops[..|ops| - 1], ops[|ops| - 1];
      RunsNest(c, before);
      var a, b := Run(c, before), Run(c + 1, before);
      match op {
        case Get(k) => NestedGet(a, b, c, k);
        case Set(k, v) => NestedSet(a, b, c, k, v);
        case Delete(k) => NestedDelete(a, b, c, k);
      }
    }
  }

  // Inclusion: under any common operations the cache of a smaller capacity is an
  // order-preserving part of the one of a larger capacity, so each of its hits is a hit
  // with the same value there.
  lemma {:induction false} Inclusion(c: nat, d: nat, ops: seq<Op>)
    requires 1 <= c <= d
    ensures Within(Run(c, ops), Run(d, ops))
    decreases d - c
  {
    if c == d {
      WithinRefl(Run(c, ops));
    } else {
      RunsNest(c, ops);
      Inclusion(c + 1, d, ops);
      WithinTransitive(Run(c, ops), Run(c + 1, ops), Run(d, ops));
    }
  }

  lemma {:induction false} HitsAreIncluded(c: nat, d: nat, ops: seq<Op>, key: string)
    requires 1 <= c <= d && Lookup(Run(c, ops), key).Some?
    ensures Lookup(Run(d, ops), key) == Lookup(Run(c, ops), key)
  {
    Inclusion(c, d, ops);
    RunIsGood(d, ops);
    WithinLookup(Run(c, ops), Run(d, ops), key);
  }
}
