// Scored candidates, ranked by score descending and then by ID ascending.
module Ranking {
  import opened Basics
  import opened Bytes
  import opened Sorting

  datatype Hit = Hit(id: Text, score: real)

  predicate Better(a: Hit, b: Hit) {
    a.score > b.score || (a.score == b.score && Less(a.id, b.id))
  }

  lemma {:induction false} BetterIsStrictTotalOrder()
    ensures StrictTotalOrder(Better)
  {
    forall a ensures !Better(a, a) {
      LessIrreflexive(a.id);
    }
    forall a, b, c | Better(a, b) && Better(b, c) ensures Better(a, c) {
      if a.score == b.score == c.score {
        LessTransitive(a.id, b.id, c.id);
      }
    }
    forall a, b ensures a == b || Better(a, b) || Better(b, a) {
      LessTotal(a.id, b.id);
    }
  }

  function SortHits(hits: seq<Hit>): seq<Hit> {
    Sort(Better, hits)
  }

  function Top(hits: seq<Hit>, k: nat): seq<Hit> {
    hits[..Min(k, |hits|)]
  }

  // `hits` are the k best of `all`, in order.
  ghost predicate IsTop(hits: seq<Hit>, all: set<Hit>, k: nat) {
    exists full :: Ranked(Better, full) && Elements(full) == all && hits == Top(full, k)
  }

  // There is one answer to "the k best, in order".
  lemma {:induction false} TopIsUnique(a: seq<Hit>, b: seq<Hit>, all: set<Hit>, k: nat)
    requires IsTop(a, all, k) && IsTop(b, all, k)
    ensures a == b
  {
    var fa :| Ranked(Better, fa) && Elements(fa) == all && a == Top(fa, k);
    var fb :| Ranked(Better, fb) && Elements(fb) == all && b == Top(fb, k);
    BetterIsStrictTotalOrder();
    RankingUnique(Better, fa, fb);
  }

  // Sorting any listing of the candidates and cutting it gives that answer.
  lemma {:induction false} SortedTop(hits: seq<Hit>, all: set<Hit>, k: nat)
    requires Distinct(hits) && Elements(hits) == all
    ensures IsTop(Top(SortHits(hits), k), all, k)
  {
    BetterIsStrictTotalOrder();
    SortRanks(Better, hits);
  }

  // Nothing outside the answer beats anything inside it.
  lemma {:induction false} TopBeatsTheRest(hits: seq<Hit>, all: set<Hit>, k: nat, h: Hit)
    requires IsTop(hits, all, k) && h in all && h !in hits
    ensures |hits| == k && forall i :: 0 <= i < |hits| ==> hits[i] in all && Better(hits[i], h)
  {
    var full :| Ranked(Better, full) && Elements(full) == all && hits == Top(full, k);
    assert h in Elements(full);
    var n :| 0 <= n < |full| && full[n] == h;
    assert n >= |hits|;
    forall i | 0 <= i < |hits| ensures hits[i] in all && Better(hits[i], h) {
      assert hits[i] == full[i];
      assert full[i] in Elements(full);
    }
  }

  lemma {:induction false} TopIsRanked(hits: seq<Hit>, all: set<Hit>, k: nat)
    requires IsTop(hits, all, k)
    ensures Ranked(Better, hits) && |hits| <= k && forall h :: h in hits ==> h in all
  {
    var full :| Ranked(Better, full) && Elements(full) == all && hits == Top(full, k);
    forall h | h in hits ensures h in all {
      assert h in full;
      assert h in Elements(full);
    }
  }

  // ---------- comparing an answer with the exact one ----------

  function Tolerance(unit: real, threshold: real): real {
    var size := if threshold < 0.0 then -threshold else threshold;
    unit * (if size > 1.0 then size else 1.0)
  }

  // As many answers as the exact ones; every exact hit strictly above the last one was
  // seen, and no answer scores strictly below it.
  predicate WithinBoundary(scores: seq<real>, seen: set<Text>, truth: seq<Hit>, unit: real) {
    |scores| == |truth|
    && (truth != [] ==>
          var threshold := truth[|truth| - 1].score;
          (forall i :: 0 <= i < |truth| && truth[i].score > threshold + Tolerance(unit, threshold) ==>
              truth[i].id in seen)
          && (forall i :: 0 <= i < |scores| ==> scores[i] >= threshold - Tolerance(unit, threshold)))
  }

  method CompareBoundary(scores: seq<real>, seen: set<Text>, truth: seq<Hit>, unit: real) returns (ok: bool)
    ensures ok <==> WithinBoundary(scores, seen, truth, unit)
  {
    if |scores| != |truth| {
      return false;
    }
    if truth == [] {
      return true;
    }
    var threshold := truth[|truth| - 1].score;
    var tolerance := Tolerance(unit, threshold);
    for i := 0 to |truth|
      invariant forall k :: 0 <= k < i && truth[k].score > threshold + tolerance ==> truth[k].id in seen
    {
      if truth[i].score > threshold + tolerance && truth[i].id !in seen {
        return false;
      }
    }
    for i := 0 to |scores|
      invariant forall k :: 0 <= k < i ==> scores[k] >= threshold - tolerance
    {
      if scores[i] < threshold - tolerance {
        return false;
      }
    }
    return true;
  }

  function IdsIn(hits: seq<Hit>): set<Text> {
    set i | 0 <= i < |hits| :: hits[i].id
  }

  function Scores(hits: seq<Hit>): seq<real> {
    seq(|hits|, i requires 0 <= i < |hits| => hits[i].score)
  }

  // The exact answer is within its own boundary.
  lemma {:induction false} ExactIsWithinBoundary(truth: seq<Hit>, unit: real)
    requires Ranked(Better, truth) && unit >= 0.0
    ensures WithinBoundary(Scores(truth), IdsIn(truth), truth, unit)
  {
    if truth != [] {
      var threshold := truth[|truth| - 1].score;
      ToleranceIsPositive(unit, threshold);
      forall i | 0 <= i < |truth| ensures truth[i].score >= threshold {
        assert i < |truth| - 1 ==> Better(truth[i], truth[|truth| - 1]);
      }
    }
  }

  lemma {:induction false} ToleranceIsPositive(unit: real, threshold: real)
    requires unit >= 0.0
    ensures Tolerance(unit, threshold) >= 0.0
  {
  }

  // The tolerance is the unit, scaled up for scores beyond one on either side of zero.
  lemma {:induction false} ToleranceSays(unit: real, threshold: real)
    requires unit >= 0.0
    ensures Tolerance(unit, threshold) == unit || Tolerance(unit, threshold) == unit * threshold
            || Tolerance(unit, threshold) == unit * (-threshold)
    ensures unit <= Tolerance(unit, threshold)
    ensures unit * threshold <= Tolerance(unit, threshold) && unit * (-threshold) <= Tolerance(unit, threshold)
  {
    var size := if threshold < 0.0 then -threshold else threshold;
    if size > 1.0 {
      assert unit * (size - 1.0) >= 0.0;
      assert unit * size >= unit * (-size);
    } else {
      assert unit * (1.0 - size) >= 0.0;
      assert unit * size >= unit * (-size);
    }
  }

  // x is above y by more than the unit, scaled by a score beyond one.
  predicate ClearlyAbove(x: real, y: real, unit: real, score: real) {
    x > y + unit && x > y + unit * score && x > y + unit * (-score)
  }

  // Exactly these answers are turned down: those of another length, those that miss an exact
  // hit clearly above the boundary, and those with a score clearly below it.
  lemma {:induction false} WrongAnswersAreRejected(scores: seq<real>, seen: set<Text>, truth: seq<Hit>, unit: real)
    requires unit >= 0.0 && truth != []
    ensures var t := truth[|truth| - 1].score;
            !WithinBoundary(scores, seen, truth, unit) <==>
              |scores| != |truth|
              || (exists i :: 0 <= i < |truth| && truth[i].id !in seen && ClearlyAbove(truth[i].score, t, unit, t))
              || (exists i :: 0 <= i < |scores| && ClearlyAbove(t, scores[i], unit, t))
  {
    var t := truth[|truth| - 1].score;
    ToleranceSays(unit, t);
    assert forall x, y :: ClearlyAbove(x, y, unit, t) <==> x > y + Tolerance(unit, t);
  }

  // Without tolerance, an accepted answer over the same scores has every hit above the
  // boundary, and nothing below it.
  lemma {:induction false} ZeroToleranceIsExact(full: seq<Hit>, out: seq<Hit>, k: nat, h: Hit)
    requires Ranked(Better, full) && (forall i :: 0 <= i < |out| ==> out[i] in full)
    requires forall i, j :: 0 <= i < |full| && 0 <= j < |full| && full[i].id == full[j].id ==> full[i] == full[j]
    requires Top(full, k) != [] && WithinBoundary(Scores(out), IdsIn(out), Top(full, k), 0.0)
    ensures |out| == Min(k, |full|)
    ensures var threshold := Top(full, k)[|Top(full, k)| - 1].score;
            (h in full && h.score > threshold ==> h in out) && (h in out ==> h.score >= threshold)
  {
    var truth := Top(full, k);
    var last := |truth| - 1;
    assert Tolerance(0.0, truth[last].score) == 0.0;
    if h in full && h.score > truth[last].score {
      var n :| 0 <= n < |full| && full[n] == h;
      assert n > last ==> Better(full[last], h);
      assert truth[n] == h && h.id in IdsIn(out);
      var i :| 0 <= i < |out| && out[i].id == h.id;
      var m :| 0 <= m < |full| && full[m] == out[i];
      assert out[i] == h;
    }
    if h in out {
      var i :| 0 <= i < |out| && out[i] == h;
      assert Scores(out)[i] == h.score;
    }
  }

  // Hits whose scores are a function of their IDs name each ID once.
  lemma {:induction false} RankedIdsDistinct(hits: seq<Hit>)
    requires Ranked(Better, hits)
    requires forall i, j :: 0 <= i < |hits| && 0 <= j < |hits| && hits[i].id == hits[j].id ==>
               hits[i].score == hits[j].score
    ensures forall i, j :: 0 <= i < j < |hits| ==> hits[i].id != hits[j].id
  {
    forall i, j | 0 <= i < j < |hits| ensures hits[i].id != hits[j].id {
      assert Better(hits[i], hits[j]);
      LessIrreflexive(hits[i].id);
    }
  }

  // ---------- answers over part of the candidates ----------

  lemma {:induction false} FewIds(hits: seq<Hit>)
    ensures |IdsIn(hits)| <= |hits|
  {
    if hits != [] {
      FewIds(hits[..|hits| - 1]);
      assert IdsIn(hits) == IdsIn(hits[..|hits| - 1]) + {hits[|hits| - 1].id};
    }
  }

  lemma {:induction false} BetterIsOneWay(a: Hit, b: Hit)
    ensures !(Better(a, b) && Better(b, a))
  {
    if Less(a.id, b.id) && Less(b.id, a.id) {
      LessTransitive(a.id, b.id, a.id);
    }
    LessIrreflexive(a.id);
  }

  lemma {:induction false} BetterIsEarlier(hits: seq<Hit>, i: nat, n: nat)
    requires Ranked(Better, hits) && i < |hits| && n < |hits| && Better(hits[i], hits[n])
    ensures i < n
  {
    BetterIsOneWay(hits[i], hits[n]);
  }

  // An answer with at least k better ones is not among the k best.
  lemma {:induction false} CrowdedOut(full: seq<Hit>, i: nat, ids: set<Text>, k: nat)
    requires Ranked(Better, full) && i < |full| && |ids| >= k
    requires forall id :: id in ids ==> exists h :: h in full && h.id == id && Better(h, full[i])
    ensures i >= k
  {
    forall id | id in ids ensures id in IdsIn(full[..i]) {
      var h :| h in full && h.id == id && Better(h, full[i]);
      var n :| 0 <= n < |full| && full[n] == h;
      BetterIsEarlier(full, n, i);
      assert full[..i][n] == h;
    }
    FewIds(full[..i]);
    SubsetSize(ids, IdsIn(full[..i]));
  }

  // If every one of the k best is among `some`, the k best of `some` are the k best of all.
  lemma {:induction false} TopOfSome(full: seq<Hit>, some: set<Hit>, out: seq<Hit>, k: nat)
    requires Ranked(Better, full) && some <= Elements(full) && IsTop(out, some, k)
    requires forall i :: 0 <= i < |full| && i < k ==> full[i] in some
    ensures out == Top(full, k)
  {
    BetterIsStrictTotalOrder();
    var part :| Ranked(Better, part) && Elements(part) == some && out == Top(part, k);
    var m := Min(k, |full|);
    forall i | 0 <= i < m ensures full[i] in part {
      assert full[i] in Elements(part);
    }
    FrontSurvives(Better, full, part, m);
    if m == |full| {
      assert full[..m] == full && forall x :: x in full ==> x in part;
      RankingUnique(Better, full, part);
    }
  }
}
