// Reciprocal rank fusion in exact arithmetic.
module Rrf {
  import opened Basics
  import opened Bytes
  import opened Sorting
  import opened Ranking
  import opened RealArithmetic

  const DEFAULT_K := 60

  // Candidates of one list, and fused ones: a key with a score.
  type Entry = Hit

  const NONE: seq<Entry> := []

  // ---------- specification ----------

  // A list in rank order: score descending, ties by key.
  function Normalized(list: seq<Entry>): seq<Entry> {
    SortHits(list)
  }

  // What the first n ranks of an ordered list give a key.
  function Gain(ordered: seq<Entry>, key: Text, k: nat, n: nat): real
    requires n <= |ordered|
  {
    if n == 0 then 0.0
    else Gain(ordered, key, k, n - 1) + (if ordered[n - 1].id == key then 1.0 / ((k + n) as real) else 0.0)
  }

  function ListGain(list: seq<Entry>, key: Text, k: nat): real {
    Gain(Normalized(list), key, k, |Normalized(list)|)
  }

  function Total(lists: seq<seq<Entry>>, key: Text, k: nat): real {
    if lists == [] then 0.0 else Total(lists[..|lists| - 1], key, k) + ListGain(lists[|lists| - 1], key, k)
  }

  ghost predicate Listed(lists: seq<seq<Entry>>, key: Text) {
    exists i :: 0 <= i < |lists| && InList(lists[i], key)
  }

  predicate InList(list: seq<Entry>, key: Text) {
    exists j :: 0 <= j < |list| && list[j].id == key
  }

  function Smoothing(k: int): nat {
    if k <= 0 then DEFAULT_K else k
  }

  // One entry for each listed key with its total, strictly ranked.
  ghost predicate Fuses(out: seq<Entry>, lists: seq<seq<Entry>>, k: nat) {
    Ranked(Better, out) && forall h :: h in out <==> Listed(lists, h.id) && h.score == Total(lists, h.id, k)
  }

  // ---------- the code ----------

  function Found(byKey: map<Text, real>, key: Text): real {
    if key in byKey then byKey[key] else 0.0
  }

  // The accumulators after some lists and the first n ranks of the next one.
  ghost predicate Accumulated(byKey: map<Text, real>, lists: seq<seq<Entry>>, ordered: seq<Entry>, n: nat, k: nat)
    requires n <= |ordered|
  {
    (forall key :: Found(byKey, key) == Total(lists, key, k) + Gain(ordered, key, k, n))
    && (forall key :: key in byKey <==> Listed(lists, key) || InList(ordered[..n], key))
  }

  function Plus(byKey: map<Text, real>, key: Text, gain: real): map<Text, real> {
    byKey[key := Found(byKey, key) + gain]
  }

  lemma {:induction false} InListOneMore(list: seq<Entry>, n: nat, key: Text)
    requires n < |list|
    ensures InList(list[..n + 1], key) <==> InList(list[..n], key) || list[n].id == key
  {
    if j :| 0 <= j < n && list[..n][j].id == key {
      assert list[..n + 1][j].id == key;
    }
    assert list[..n + 1][n] == list[n];
  }

  lemma {:induction false} RankAdds(byKey: map<Text, real>, lists: seq<seq<Entry>>, ordered: seq<Entry>, n: nat, k: nat)
    requires n < |ordered| && Accumulated(byKey, lists, ordered, n, k)
    ensures Accumulated(Plus(byKey, ordered[n].id, 1.0 / ((k + n + 1) as real)), lists, ordered, n + 1, k)
  {
    var next := Plus(byKey, ordered[n].id, 1.0 / ((k + n + 1) as real));
    forall key ensures Found(next, key) == Total(lists, key, k) + Gain(ordered, key, k, n + 1) {
      assert Found(byKey, key) == Total(lists, key, k) + Gain(ordered, key, k, n);
    }
    forall key ensures key in next <==> Listed(lists, key) || InList(ordered[..n + 1], key) {
      InListOneMore(ordered, n, key);
    }
  }

  lemma {:induction false} SameKeys(list: seq<Entry>, key: Text)
    ensures InList(Normalized(list), key) <==> InList(list, key)
  {
    BetterIsStrictTotalOrder();
    SortSorts(Better, list);
    InMultiset(list, key);
    InMultiset(Normalized(list), key);
  }

  lemma {:induction false} InMultiset(list: seq<Entry>, key: Text)
    ensures InList(list, key) <==> exists h :: h in multiset(list) && h.id == key
  {
    if h :| h in multiset(list) && h.id == key {
      var j :| 0 <= j < |list| && list[j] == h;
    }
    if j :| 0 <= j < |list| && list[j].id == key {
      assert list[j] in multiset(list);
    }
  }

  lemma {:induction false} ListedOneMore(lists: seq<seq<Entry>>, i: nat, key: Text)
    requires i < |lists|
    ensures Listed(lists[..i + 1], key) <==> Listed(lists[..i], key) || InList(lists[i], key)
  {
    if j :| 0 <= j < i && InList(lists[..i][j], key) {
      assert InList(lists[..i + 1][j], key);
    }
    if InList(lists[i], key) {
      assert InList(lists[..i + 1][i], key);
    }
  }

  // One list accumulated whole.
  lemma {:induction false} ListDone(byKey: map<Text, real>, lists: seq<seq<Entry>>, i: nat, k: nat)
    requires i < |lists| && Accumulated(byKey, lists[..i], Normalized(lists[i]), |Normalized(lists[i])|, k)
    ensures Accumulated(byKey, lists[..i + 1], NONE, 0, k)
  {
    var ordered := Normalized(lists[i]);
    assert lists[..i + 1][..i] == lists[..i] && ordered[..|ordered|] == ordered;
    forall key ensures key in byKey <==> Listed(lists[..i + 1], key) || InList(NONE[..0], key) {
      ListedOneMore(lists, i, key);
      SameKeys(lists[i], key);
    }
    forall key ensures Found(byKey, key) == Total(lists[..i + 1], key, k) + Gain(NONE, key, k, 0) {
      assert Found(byKey, key) == Total(lists[..i], key, k) + Gain(ordered, key, k, |ordered|);
    }
  }

  lemma {:induction false} ListStarts(byKey: map<Text, real>, lists: seq<seq<Entry>>, ordered: seq<Entry>, k: nat)
    requires Accumulated(byKey, lists, NONE, 0, k)
    ensures Accumulated(byKey, lists, ordered, 0, k)
  {
    forall key ensures Found(byKey, key) == Total(lists, key, k) + Gain(ordered, key, k, 0) {
      assert Found(byKey, key) == Total(lists, key, k) + Gain(NONE, key, k, 0);
    }
    forall key ensures key in byKey <==> Listed(lists, key) || InList(ordered[..0], key) {
      assert !InList(NONE[..0], key);
    }
  }

  method AddList(ghost lists: seq<seq<Entry>>, ordered: seq<Entry>, before: map<Text, real>, k: nat)
    returns (byKey: map<Text, real>)
    requires Accumulated(before, lists, ordered, 0, k)
    ensures Accumulated(byKey, lists, ordered, |ordered|, k)
  {
    byKey := before;
    for rank := 0 to |ordered|
      invariant Accumulated(byKey, lists, ordered, rank, k)
    {
      RankAdds(byKey, lists, ordered, rank, k);
      byKey := Plus(byKey, ordered[rank].id, 1.0 / ((k + rank + 1) as real));
    }
  }

  method Accumulate(lists: seq<seq<Entry>>, k: nat) returns (byKey: map<Text, real>)
    ensures Accumulated(byKey, lists, NONE, 0, k)
  {
    byKey := map[];
    assert Accumulated(byKey, lists[..0], NONE, 0, k);
    for i := 0 to |lists|
      invariant Accumulated(byKey, lists[..i], NONE, 0, k)
    {
      var ordered := Normalized(lists[i]);
      ListStarts(byKey, lists[..i], ordered, k);
      byKey := AddList(lists[..i], ordered, byKey, k);
      ListDone(byKey, lists, i, k);
    }
    assert lists[..|lists|] == lists;
  }

  // Nothing to fuse gives nothing; otherwise every listed key once, strictly ranked.
  method Fuse(lists: seq<seq<Entry>>, k: int) returns (out: seq<Entry>)
    ensures Fuses(out, lists, Smoothing(k))
    ensures out == [] <==> forall key: Text :: !Listed(lists, key)
  {
    var smoothing := Smoothing(k);
    var byKey := Accumulate(lists, smoothing);
    var keys := Listing(byKey.Keys);
    var entries := EntriesFor(byKey, keys);
    out := SortHits(entries);
    Finish(lists, smoothing, byKey, entries);
    if out != [] {
      assert out[0] in out;
    }
    forall key | Listed(lists, key) ensures out != [] {
      assert Hit(key, Total(lists, key, smoothing)) in out;
    }
  }

  method EntriesFor(byKey: map<Text, real>, keys: seq<Text>) returns (entries: seq<Entry>)
    requires Distinct(keys) && forall key :: key in keys <==> key in byKey
    ensures Distinct(entries) && forall h :: h in entries <==> h.id in byKey && byKey[h.id] == h.score
  {
    entries := [];
    for i := 0 to |keys|
      invariant |entries| == i && forall j :: 0 <= j < i ==> entries[j] == Hit(keys[j], byKey[keys[j]])
    {
      entries := entries + [Hit(keys[i], byKey[keys[i]])];
    }
    forall h: Entry | h.id in byKey && byKey[h.id] == h.score ensures h in entries {
      var j :| 0 <= j < |keys| && keys[j] == h.id;
      assert entries[j] == h;
    }
  }

  lemma {:induction false} Finish(lists: seq<seq<Entry>>, k: nat, byKey: map<Text, real>, entries: seq<Entry>)
    requires Accumulated(byKey, lists, NONE, 0, k) && Distinct(entries)
    requires forall h :: h in entries <==> h.id in byKey && byKey[h.id] == h.score
    ensures Fuses(SortHits(entries), lists, k)
  {
    BetterIsStrictTotalOrder();
    SortRanks(Better, entries);
    forall h ensures h in SortHits(entries) <==> Listed(lists, h.id) && h.score == Total(lists, h.id, k) {
      assert h in Elements(SortHits(entries)) <==> h in Elements(entries);
      assert Found(byKey, h.id) == Total(lists, h.id, k) + Gain(NONE, h.id, k, 0);
      assert !InList(NONE[..0], h.id);
    }
  }

  // ---------- order independence ----------

  // There is one fusion of given lists.
  lemma {:induction false} FusionIsUnique(a: seq<Entry>, b: seq<Entry>, lists: seq<seq<Entry>>, k: nat)
    requires Fuses(a, lists, k) && Fuses(b, lists, k)
    ensures a == b
  {
    BetterIsStrictTotalOrder();
    assert Elements(a) == Elements(b);
    RankingUnique(Better, a, b);
  }

  // The entries of a list in another order rank the same.
  lemma {:induction false} EntryOrderDoesNotMatter(a: seq<Entry>, b: seq<Entry>)
    requires multiset(a) == multiset(b)
    ensures Normalized(a) == Normalized(b)
  {
    BetterIsStrictTotalOrder();
    SortSorts(Better, a);
    SortSorts(Better, b);
    SortedIsUnique(Normalized(a), Normalized(b));
  }

  lemma {:induction false} FirstIsBest(a: seq<Entry>, h: Entry)
    requires Sorted(Better, a) && h in multiset(a)
    ensures a != [] && (a[0] == h || Better(a[0], h))
  {
    var i :| 0 <= i < |a| && a[i] == h;
    LessTotal(a[0].id, h.id);
  }

  lemma {:induction false} WithoutFirst(a: seq<Entry>)
    requires a != []
    ensures multiset(a[1..]) == multiset(a) - multiset{a[0]}
  {
    assert a == [a[0]] + a[1..];
  }

  lemma {:induction false} SortedIsUnique(a: seq<Entry>, b: seq<Entry>)
    requires Sorted(Better, a) && Sorted(Better, b) && multiset(a) == multiset(b)
    ensures a == b
  {
    assert |a| == |multiset(a)| == |multiset(b)| == |b|;
    if a != [] {
      FirstIsBest(b, a[0]);
      FirstIsBest(a, b[0]);
      BetterIsOneWay(a[0], b[0]);
      WithoutFirst(a);
      WithoutFirst(b);
      SortedIsUnique(a[1..], b[1..]);
      assert a == [a[0]] + a[1..] && b == [b[0]] + b[1..];
    }
  }

  // Two collections of lists that differ only in the order of the lists and of the entries
  // within them.
  ghost predicate SameLists(a: seq<seq<Entry>>, b: seq<seq<Entry>>) {
    multiset(AllNormalized(a)) == multiset(AllNormalized(b))
  }

  function AllNormalized(lists: seq<seq<Entry>>): seq<seq<Entry>> {
    seq(|lists|, i requires 0 <= i < |lists| => Normalized(lists[i]))
  }

  function OrderedTotal(ordered: seq<seq<Entry>>, key: Text, k: nat): real {
    if ordered == [] then 0.0
    else
      var last := ordered[|ordered| - 1];
      OrderedTotal(ordered[..|ordered| - 1], key, k) + Gain(last, key, k, |last|)
  }

  lemma {:induction false} TotalIsOrderedTotal(lists: seq<seq<Entry>>, key: Text, k: nat)
    ensures Total(lists, key, k) == OrderedTotal(AllNormalized(lists), key, k)
  {
    if lists != [] {
      TotalIsOrderedTotal(lists[..|lists| - 1], key, k);
      assert AllNormalized(lists)[..|lists| - 1] == AllNormalized(lists[..|lists| - 1]);
    }
  }

  lemma {:induction false} RemoveOne(ordered: seq<seq<Entry>>, i: nat, key: Text, k: nat)
    requires i < |ordered|
    ensures OrderedTotal(ordered, key, k)
         == OrderedTotal(ordered[..i] + ordered[i + 1..], key, k) + Gain(ordered[i], key, k, |ordered[i]|)
    ensures multiset(ordered) == multiset(ordered[..i] + ordered[i + 1..]) + multiset{ordered[i]}
  {
    hide Gain;
    MultisetWithout(ordered, i);
    var init := ordered[..|ordered| - 1];
    var rest := ordered[..i] + ordered[i + 1..];
    if i < |ordered| - 1 {
      RemoveOne(init, i, key, k);
      assert rest == (init[..i] + init[i + 1..]) + [ordered[|ordered| - 1]];
      assert rest[..|rest| - 1] == init[..i] + init[i + 1..];
    } else {
      assert rest == init;
    }
  }

  lemma {:induction false} MultisetWithout<T>(s: seq<T>, i: nat)
    requires i < |s|
    ensures multiset(s) == multiset(s[..i] + s[i + 1..]) + multiset{s[i]}
  {
    SplitAt(s, i);
    assert multiset(s) == multiset(s[..i]) + multiset{s[i]} + multiset(s[i + 1..]);
  }

  lemma {:induction false} SumsAgree(a: seq<seq<Entry>>, b: seq<seq<Entry>>, key: Text, k: nat)
    requires multiset(a) == multiset(b)
    ensures OrderedTotal(a, key, k) == OrderedTotal(b, key, k)
    decreases |a|
  {
    assert |a| == |multiset(a)| == |multiset(b)| == |b|;
    if a != [] {
      var last := a[|a| - 1];
      assert last in multiset(b);
      var i :| 0 <= i < |b| && b[i] == last;
      var fewer := b[..i] + b[i + 1..];
      RemoveOne(b, i, key, k);
      assert a == a[..|a| - 1] + [last];
      assert multiset(a[..|a| - 1]) == multiset(a) - multiset{last};
      assert multiset(fewer) == multiset(b) - multiset{last};
      SumsAgree(a[..|a| - 1], fewer, key, k);
    }
  }

  lemma {:induction false} ListedAgrees(a: seq<seq<Entry>>, b: seq<seq<Entry>>, key: Text)
    requires SameLists(a, b) && Listed(a, key)
    ensures Listed(b, key)
  {
    var i :| 0 <= i < |a| && InList(a[i], key);
    SameKeys(a[i], key);
    assert AllNormalized(a)[i] in multiset(AllNormalized(a));
    assert AllNormalized(a)[i] in multiset(AllNormalized(b));
    var j :| 0 <= j < |b| && AllNormalized(b)[j] == AllNormalized(a)[i];
    SameKeys(b[j], key);
  }

  // Fusion does not depend on the order of the lists nor of the entries within them.
  lemma {:induction false} OrderDoesNotMatter(a: seq<seq<Entry>>, b: seq<seq<Entry>>, k: nat, out: seq<Entry>)
    requires SameLists(a, b) && Fuses(out, a, k)
    ensures Fuses(out, b, k)
  {
    forall h ensures h in out <==> Listed(b, h.id) && h.score == Total(b, h.id, k) {
      TotalIsOrderedTotal(a, h.id, k);
      TotalIsOrderedTotal(b, h.id, k);
      SumsAgree(AllNormalized(a), AllNormalized(b), h.id, k);
      if Listed(a, h.id) {
        ListedAgrees(a, b, h.id);
      }
      if Listed(b, h.id) {
        ListedAgrees(b, a, h.id);
      }
    }
  }

  // ---------- dominance ----------

  predicate UniqueKeys(list: seq<Entry>) {
    forall i, j :: 0 <= i < j < |list| ==> list[i].id != list[j].id
  }

  // In this ordered list, b does not appear or a is ahead of it.
  predicate Ahead(ordered: seq<Entry>, a: Text, b: Text) {
    forall j :: 0 <= j < |ordered| && ordered[j].id == b ==> InList(ordered[..j], a)
  }

  lemma {:induction false} GainAt(ordered: seq<Entry>, key: Text, k: nat, j: nat, n: nat)
    requires UniqueKeys(ordered) && n <= |ordered| && j < |ordered| && ordered[j].id == key
    ensures Gain(ordered, key, k, n) == if j < n then 1.0 / ((k + j + 1) as real) else 0.0
  {
    if n > 0 {
      GainAt(ordered, key, k, j, n - 1);
    }
  }

  lemma {:induction false} NoGain(ordered: seq<Entry>, key: Text, k: nat, n: nat)
    requires n <= |ordered| && !InList(ordered, key)
    ensures Gain(ordered, key, k, n) == 0.0
  {
    if n > 0 {
      NoGain(ordered, key, k, n - 1);
    }
  }

  lemma {:induction false} GainNotNegative(ordered: seq<Entry>, key: Text, k: nat, n: nat)
    requires n <= |ordered|
    ensures Gain(ordered, key, k, n) >= 0.0
  {
    if n > 0 {
      GainNotNegative(ordered, key, k, n - 1);
      InverseShrinks((k + n) as real, (k + n) as real + 1.0);
    }
  }

  lemma {:induction false} AheadGainsMore(ordered: seq<Entry>, a: Text, b: Text, k: nat)
    requires UniqueKeys(ordered) && Ahead(ordered, a, b)
    ensures Gain(ordered, a, k, |ordered|) >= Gain(ordered, b, k, |ordered|)
    ensures InList(ordered, b) ==> Gain(ordered, a, k, |ordered|) > Gain(ordered, b, k, |ordered|)
  {
    if InList(ordered, b) {
      var j :| 0 <= j < |ordered| && ordered[j].id == b;
      var i :| 0 <= i < j && ordered[..j][i].id == a;
      GainAt(ordered, b, k, j, |ordered|);
      GainAt(ordered, a, k, i, |ordered|);
      InverseShrinks((k + i + 1) as real, (k + j + 1) as real);
    } else {
      NoGain(ordered, b, k, |ordered|);
      GainNotNegative(ordered, a, k, |ordered|);
    }
  }

  lemma {:induction false} AheadTotalsMore(lists: seq<seq<Entry>>, a: Text, b: Text, k: nat)
    requires forall i :: 0 <= i < |lists| ==> UniqueKeys(Normalized(lists[i])) && Ahead(Normalized(lists[i]), a, b)
    ensures Total(lists, a, k) >= Total(lists, b, k)
    ensures Listed(lists, b) ==> Total(lists, a, k) > Total(lists, b, k)
  {
    if lists != [] {
      var init, last := lists[..|lists| - 1], lists[|lists| - 1];
      AheadTotalsMore(init, a, b, k);
      AheadGainsMore(Normalized(last), a, b, k);
      assert lists[..|init| + 1] == lists;
      ListedOneMore(lists, |init|, b);
      SameKeys(last, b);
    }
  }

  // In a list with each key once, a key whose entry is better than that of b is ahead of it.
  lemma {:induction false} BetterIsAhead(list: seq<Entry>, a: Text, b: Text)
    requires forall p, q :: 0 <= p < q < |list| ==> list[p].id != list[q].id
    requires forall q :: 0 <= q < |list| && list[q].id == b ==>
               exists p :: 0 <= p < |list| && list[p].id == a && Better(list[p], list[q])
    ensures UniqueKeys(Normalized(list)) && Ahead(Normalized(list), a, b)
  {
    BetterIsStrictTotalOrder();
    SortRanks(Better, list);
    var ordered := Normalized(list);
    forall x, y | x in ordered && y in ordered && x.id == y.id ensures x == y {
      assert x in Elements(ordered) && y in Elements(ordered);
      var p :| 0 <= p < |list| && list[p] == x;
      var q :| 0 <= q < |list| && list[q] == y;
    }
    forall i, j | 0 <= i < j < |ordered| ensures ordered[i].id != ordered[j].id {
      assert Better(ordered[i], ordered[j]) && !Better(ordered[i], ordered[i]);
      assert ordered[i] in ordered && ordered[j] in ordered;
    }
    forall j | 0 <= j < |ordered| && ordered[j].id == b ensures InList(ordered[..j], a) {
      assert ordered[j] in Elements(ordered);
      var q :| 0 <= q < |list| && list[q] == ordered[j];
      var p :| 0 <= p < |list| && list[p].id == a && Better(list[p], list[q]);
      assert list[p] in Elements(ordered);
      var i :| 0 <= i < |ordered| && ordered[i] == list[p];
      BetterIsEarlier(ordered, i, j);
      assert ordered[..j][i].id == a;
    }
  }

  // With each key once per list: a key that is better than another in every list that has the
  // other is fused ahead of it.
  lemma {:induction false} Dominance(lists: seq<seq<Entry>>, a: Text, b: Text, k: nat, out: seq<Entry>, j: nat)
    requires forall i, p, q :: 0 <= i < |lists| && 0 <= p < q < |lists[i]| ==> lists[i][p].id != lists[i][q].id
    requires forall i, q :: 0 <= i < |lists| && 0 <= q < |lists[i]| && lists[i][q].id == b ==>
               exists p :: 0 <= p < |lists[i]| && lists[i][p].id == a && Better(lists[i][p], lists[i][q])
    requires Fuses(out, lists, k) && j < |out| && out[j].id == b
    ensures exists i :: 0 <= i < j && out[i].id == a
  {
    forall i | 0 <= i < |lists| ensures UniqueKeys(Normalized(lists[i])) && Ahead(Normalized(lists[i]), a, b) {
      BetterIsAhead(lists[i], a, b);
    }
    assert out[j] in out;
    AheadTotalsMore(lists, a, b, k);
    ListedToo(lists, a, b);
    var h := Hit(a, Total(lists, a, k));
    assert h in out;
    var i :| 0 <= i < |out| && out[i] == h;
    BetterIsEarlier(out, i, j);
  }

  lemma {:induction false} ListedToo(lists: seq<seq<Entry>>, a: Text, b: Text)
    requires forall i :: 0 <= i < |lists| ==> Ahead(Normalized(lists[i]), a, b)
    requires Listed(lists, b)
    ensures Listed(lists, a)
  {
    var i :| 0 <= i < |lists| && InList(lists[i], b);
    var ordered := Normalized(lists[i]);
    SameKeys(lists[i], b);
    var j :| 0 <= j < |ordered| && ordered[j].id == b;
    var n :| 0 <= n < j && ordered[..j][n].id == a;
    assert ordered[n].id == a;
    SameKeys(lists[i], a);
  }
}
