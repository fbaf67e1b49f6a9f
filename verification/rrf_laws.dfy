// What a key gains, rank by rank.
module RrfLaws {
  import opened Basics
  import opened Bytes
  import opened Sorting
  import opened Ranking
  import opened Rrf

  // The caller's constant, if it is positive, else 60.
  lemma {:induction false} GainByRank(ordered: seq<Entry>, key: Text, k: int, i: nat)
    requires i < |ordered| && ordered[i].id == key
    requires forall j :: 0 <= j < |ordered| && j != i ==> ordered[j].id != key
    ensures Gain(ordered, key, Smoothing(k), |ordered|) == 1.0 / ((if k > 0 then k else 60) + i + 1) as real
  {
    GainBefore(ordered, key, Smoothing(k), i);
    GainAfter(ordered, key, Smoothing(k), i + 1, |ordered|);
  }

  lemma {:induction false} GainBefore(ordered: seq<Entry>, key: Text, k: nat, n: nat)
    requires n <= |ordered| && forall j :: 0 <= j < n ==> ordered[j].id != key
    ensures Gain(ordered, key, k, n) == 0.0
  {
    if n > 0 {
      GainBefore(ordered, key, k, n - 1);
    }
  }

  lemma {:induction false} GainAfter(ordered: seq<Entry>, key: Text, k: nat, i: nat, n: nat)
    requires i <= n <= |ordered| && forall j :: i <= j < n ==> ordered[j].id != key
    ensures Gain(ordered, key, k, n) == Gain(ordered, key, k, i)
  {
    if i < n {
      GainAfter(ordered, key, k, i, n - 1);
    }
  }

  // A list without the key gives it nothing; one with it once gives it the reciprocal of its
  // rank, counted from 1, plus the constant.
  lemma {:induction false} OneMoreList(lists: seq<seq<Entry>>, list: seq<Entry>, key: Text, k: int, i: nat)
    requires i < |list| && Ranked(Better, list) && list[i].id == key
    requires forall j :: 0 <= j < |list| && j != i ==> list[j].id != key
    ensures Total(lists + [list], key, Smoothing(k))
         == Total(lists, key, Smoothing(k)) + 1.0 / ((if k > 0 then k else 60) + i + 1) as real
  {
    assert (lists + [list])[..|lists|] == lists;
    RankedIsNormalized(list);
    GainByRank(list, key, k, i);
  }

  lemma {:induction false} ListWithoutKey(lists: seq<seq<Entry>>, list: seq<Entry>, key: Text, k: int)
    requires Ranked(Better, list) && forall j :: 0 <= j < |list| ==> list[j].id != key
    ensures Total(lists + [list], key, Smoothing(k)) == Total(lists, key, Smoothing(k))
            && Total([], key, Smoothing(k)) == 0.0
  {
    assert (lists + [list])[..|lists|] == lists;
    RankedIsNormalized(list);
    GainBefore(list, key, Smoothing(k), |list|);
  }

  // A list in rank order is its own normal form.
  lemma {:induction false} RankedIsNormalized(list: seq<Entry>)
    requires Ranked(Better, list)
    ensures Normalized(list) == list
  {
    BetterIsStrictTotalOrder();
    assert Distinct(list) by {
      forall i, j | 0 <= i < j < |list| ensures list[i] != list[j] {
        assert Better(list[i], list[j]);
        assert !Better(list[i], list[i]);
      }
    }
    SortRanks(Better, list);
    RankingUnique(Better, Normalized(list), list);
  }
}
