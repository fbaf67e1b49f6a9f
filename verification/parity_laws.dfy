// What the small pieces of the lane comparison mean: keys, tolerance, and the report.
module ParityLaws {
  import opened Basics
  import opened Bytes
  import opened Parity

  // ---------- keys ----------

  // IDs have no NUL byte, so neighbours in a key cannot run into each other.
  lemma {:induction false} FrontIsUnique(a: Text, b: Text, u: Text, v: Text)
    requires 0 !in a && 0 !in b && a + [0] + u == b + [0] + v
    ensures a == b && u == v
  {
    var x, y := a + [0] + u, b + [0] + v;
    assert x[|a|] == 0 && y[|b|] == 0;
    assert (forall i :: 0 <= i < |a| ==> x[i] == a[i]) && (forall i :: 0 <= i < |b| ==> y[i] == b[i]);
    assert a == x[..|a|] == y[..|b|] == b;
    assert u == x[|a| + 1..] == y[|b| + 1..] == v;
  }

  lemma {:induction false} KeyNamesTheTuple(d: Text, r: Text, c: Text, d': Text, r': Text, c': Text)
    requires 0 !in d && 0 !in d' && 0 !in r && 0 !in r'
    ensures NulKey(d, r, c) == NulKey(d', r', c') <==> d == d' && r == r' && c == c'
  {
    if NulKey(d, r, c) == NulKey(d', r', c') {
      assert NulKey(d, r, c) == d + [0] + (r + [0] + c) && NulKey(d', r', c') == d' + [0] + (r' + [0] + c');
      FrontIsUnique(d, d', r + [0] + c, r' + [0] + c');
      FrontIsUnique(r, r', c, c');
    }
  }

  // The rows of a report under their tuples, a later row with the same key in place of an
  // earlier one.
  function ChunkMap(rows: seq<ScoredChunk>): map<Text, string> {
    if rows == [] then map[]
    else
      var last := rows[|rows| - 1];
      ChunkMap(rows[..|rows| - 1])[NulKey(last.document, last.revision, last.chunk) := last.key]
  }

  // A hit on some row's document, revision and chunk is given that row's key; any other hit is
  // unknown.
  lemma {:induction false} KeyOfRow(rows: seq<ScoredChunk>, hit: GoHit)
    requires 0 !in hit.document && 0 !in hit.revision
    requires forall i :: 0 <= i < |rows| ==> 0 !in rows[i].document && 0 !in rows[i].revision
    requires forall i, j :: 0 <= i < j < |rows| ==> TupleOf(rows[i]) != TupleOf(rows[j])
    ensures forall i :: 0 <= i < |rows| && TupleOf(rows[i]) == [hit.document, hit.revision, hit.chunk] ==>
              KeyOf(hit, ChunkMap(rows)) == Some(rows[i].key)
    ensures (forall i :: 0 <= i < |rows| ==> TupleOf(rows[i]) != [hit.document, hit.revision, hit.chunk]) ==>
              KeyOf(hit, ChunkMap(rows)).None?
  {
    if rows != [] {
      var init, last := rows[..|rows| - 1], rows[|rows| - 1];
      KeyOfRow(init, hit);
      KeyNamesTheTuple(last.document, last.revision, last.chunk, hit.document, hit.revision, hit.chunk);
      assert forall i :: 0 <= i < |init| ==> init[i] == rows[i];
    }
  }

  // So the chunk map of a report knows every row of it.
  lemma {:induction false} ReportIsKnown(rows: seq<ScoredChunk>)
    requires InReportOrder(rows)
    requires forall i :: 0 <= i < |rows| ==> 0 !in rows[i].document && 0 !in rows[i].revision
    requires forall i, j :: 0 <= i < j < |rows| ==> rows[i].key != rows[j].key
    ensures Knows(ChunkMap(rows), rows)
  {
    forall i | 0 <= i < |rows| ensures KeyOf(GoHitOf(rows[i]), ChunkMap(rows)) == Some(rows[i].key) {
      KeyOfRow(rows, GoHitOf(rows[i]));
    }
  }

  // ---------- scores ----------

  // A row agrees if the lane's score is within the tolerance on both sides; a row the lane
  // leaves out counts as zero if it may be left out.
  lemma {:induction false} AgreesWithin(sparse: bool, r: ScoredChunk, scores: map<string, real>)
    ensures RowAgrees(sparse, r, scores) <==>
              if r.key in scores
              then -SCORE_TOLERANCE <= r.score - scores[r.key] <= SCORE_TOLERANCE
              else sparse && r.score == 0.0
  {
  }

  lemma {:induction false} ToleranceIsTight()
    ensures SCORE_TOLERANCE * 1000000000.0 == 1.0
  {
  }

  // The reported difference bounds those of all rows, and is one of them.
  lemma {:induction false} LargestDelta(sparse: bool, raw: seq<ScoredChunk>, scores: map<string, real>)
    ensures MaxDelta(sparse, raw, scores) >= 0.0
    ensures forall i :: 0 <= i < |raw| && raw[i].key in scores ==>
              -MaxDelta(sparse, raw, scores) <= raw[i].score - scores[raw[i].key] <= MaxDelta(sparse, raw, scores)
    ensures MaxDelta(sparse, raw, scores) > 0.0 ==>
              exists i :: 0 <= i < |raw| && raw[i].key in scores
                          && (raw[i].score - scores[raw[i].key] == MaxDelta(sparse, raw, scores)
                              || scores[raw[i].key] - raw[i].score == MaxDelta(sparse, raw, scores))
  {
    if raw != [] {
      var init, last := raw[..|raw| - 1], raw[|raw| - 1];
      LargestDelta(sparse, init, scores);
      assert forall i :: 0 <= i < |init| ==> init[i] == raw[i];
      if MaxDelta(sparse, raw, scores) > 0.0 {
        if MaxDelta(sparse, raw, scores) == MaxDelta(sparse, init, scores) {
          var i :| 0 <= i < |init| && init[i].key in scores
                   && (init[i].score - scores[init[i].key] == MaxDelta(sparse, init, scores)
                       || scores[init[i].key] - init[i].score == MaxDelta(sparse, init, scores));
          assert raw[i].key in scores;
        } else {
          assert raw[|raw| - 1].key in scores;
        }
      }
    }
  }

  // The rows with score zero that a sparse lane left out.
  lemma {:induction false} ZeroesCounted(sparse: bool, raw: seq<ScoredChunk>, scores: map<string, real>)
    ensures ZeroExcluded(sparse, raw, scores)
         == if sparse then |set i | 0 <= i < |raw| && raw[i].score == 0.0 && raw[i].key !in scores| else 0
  {
    var all := set i | 0 <= i < |raw| && raw[i].score == 0.0 && raw[i].key !in scores;
    if raw == [] {
      assert all == {};
    } else {
      var init, n := raw[..|raw| - 1], |raw| - 1;
      ZeroesCounted(sparse, init, scores);
      var before := set i | 0 <= i < |init| && init[i].score == 0.0 && init[i].key !in scores;
      assert all == if raw[n].score == 0.0 && raw[n].key !in scores then before + {n} else before;
    }
  }

  // The scorer's own top list agrees if the lane has no fewer keys, and the first k of both
  // are the same.
  lemma {:induction false} SameTopSays(keys: seq<string>, top: seq<ScoredChunk>, k: nat)
    ensures SameTop(keys, top, k) <==>
              Min(k, |keys|) <= |top| <= |keys| && keys[..Min(k, |keys|)] == KeysOf(top[..Min(k, |keys|)])
  {
    var n := Min(k, |keys|);
    if SameTop(keys, top, k) {
      assert n > 0 ==> SameAt(keys, top, n - 1);
      forall i | 0 <= i < n ensures keys[..n][i] == KeysOf(top[..n])[i] {
        assert SameAt(keys, top, i);
      }
      assert keys[..n] == KeysOf(top[..n]);
    }
    if n <= |top| <= |keys| && keys[..n] == KeysOf(top[..n]) {
      forall i | 0 <= i < |keys| && i < k ensures SameAt(keys, top, i) {
        assert keys[i] == keys[..n][i] == KeysOf(top[..n])[i];
      }
    }
  }
}
