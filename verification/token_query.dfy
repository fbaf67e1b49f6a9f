// When token-row candidates give the same answer as scoring every allowed chunk, and the
// query that re-scores them.
module TokenQuery {
  import opened Basics
  import opened Bytes
  import opened Sorting
  import opened Ranking
  import opened SparseVectors
  import opened MaxSimScore
  import opened TokenSearch

  // ---------- counting the chunks among kept rows ----------

  function Without(rows: seq<ScoredToken>, id: Text): seq<ScoredToken> {
    if rows == [] then []
    else Without(rows[..|rows| - 1], id) + (if rows[|rows| - 1].chunkId == id then [] else [rows[|rows| - 1]])
  }

  function PositionsOf(rows: seq<ScoredToken>, id: Text): set<nat> {
    set i | 0 <= i < |rows| && rows[i].chunkId == id :: rows[i].position
  }

  lemma {:induction false} WithoutSays(rows: seq<ScoredToken>, id: Text)
    ensures forall r :: r in Without(rows, id) <==> r in rows && r.chunkId != id
  {
    if rows != [] {
      WithoutSays(rows[..|rows| - 1], id);
      assert rows == rows[..|rows| - 1] + [rows[|rows| - 1]];
    }
  }

  lemma {:induction false} WithoutDistinct(rows: seq<ScoredToken>, id: Text)
    requires DistinctRows(rows)
    ensures DistinctRows(Without(rows, id))
  {
    if rows != [] {
      var rest, last := rows[..|rows| - 1], rows[|rows| - 1];
      WithoutDistinct(rest, id);
      WithoutSays(rest, id);
      var w := Without(rest, id);
      forall k | 0 <= k < |w| ensures w[k].chunkId != last.chunkId || w[k].position != last.position {
        assert w[k] in rest;
      }
    }
  }

  lemma {:induction false} WithoutCounts(rows: seq<ScoredToken>, id: Text)
    requires DistinctRows(rows)
    ensures |rows| == |Without(rows, id)| + |PositionsOf(rows, id)|
  {
    if rows != [] {
      var rest, last := rows[..|rows| - 1], rows[|rows| - 1];
      WithoutCounts(rest, id);
      assert PositionsOf(rows, id) == PositionsOf(rest, id) + (if last.chunkId == id then {last.position} else {});
      assert last.chunkId == id ==> last.position !in PositionsOf(rest, id);
    }
  }

  lemma {:induction false} WithoutIds(rows: seq<ScoredToken>, id: Text)
    ensures KeptIds(Without(rows, id)) == KeptIds(rows) - {id}
  {
    WithoutSays(rows, id);
    forall other ensures other in KeptIds(Without(rows, id)) <==> other in KeptIds(rows) && other != id {
      KeptIdsSay(Without(rows, id), other);
      KeptIdsSay(rows, other);
    }
  }

  // If no chunk has more than `most` of the rows, there are at least |rows| / most chunks.
  lemma {:induction false} ManyRowsManyChunks(rows: seq<ScoredToken>, most: nat)
    requires DistinctRows(rows) && forall id :: id in KeptIds(rows) ==> |PositionsOf(rows, id)| <= most
    ensures |rows| <= |KeptIds(rows)| * most
    decreases |KeptIds(rows)|
  {
    if rows != [] {
      var id := rows[0].chunkId;
      assert id in KeptIds(rows);
      var rest := Without(rows, id);
      WithoutDistinct(rows, id);
      WithoutCounts(rows, id);
      WithoutIds(rows, id);
      forall other | other in KeptIds(rest) ensures |PositionsOf(rest, other)| <= most {
        SamePositions(rows, id, other);
      }
      ManyRowsManyChunks(rest, most);
      OneMoreChunk(|KeptIds(rest)|, most);
    }
  }

  lemma {:induction false} OneMoreChunk(n: nat, most: nat)
    ensures (n + 1) * most == n * most + most
  {
  }

  lemma {:induction false} KeptIdsSay(rows: seq<ScoredToken>, id: Text)
    ensures id in KeptIds(rows) <==> exists r :: r in rows && r.chunkId == id
  {
    if r :| r in rows && r.chunkId == id {
      var i :| 0 <= i < |rows| && rows[i] == r;
      assert rows[i].chunkId in KeptIds(rows);
    }
  }

  lemma {:induction false} SamePositions(rows: seq<ScoredToken>, id: Text, other: Text)
    requires id != other
    ensures PositionsOf(Without(rows, id), other) == PositionsOf(rows, other)
  {
    WithoutSays(rows, id);
    forall p: nat ensures p in PositionsOf(Without(rows, id), other) <==> p in PositionsOf(rows, other) {
      PositionsSay(Without(rows, id), other, p);
      PositionsSay(rows, other, p);
    }
  }

  lemma {:induction false} PositionsSay(rows: seq<ScoredToken>, id: Text, p: nat)
    ensures p in PositionsOf(rows, id) <==> exists r :: r in rows && r.chunkId == id && r.position == p
  {
    if r :| r in rows && r.chunkId == id && r.position == p {
      var i :| 0 <= i < |rows| && rows[i] == r;
      assert rows[i].position in PositionsOf(rows, id);
    }
  }

  // ---------- one valid query token ----------

  // The valid token of a query that has just one.
  ghost predicate OnlyToken(q: TokenMatrix, i: nat) {
    i < |q.mask| && q.mask[i] && Count(q.mask) == 1
  }

  // The rows kept by the whole query are those its only token keeps.
  lemma {:induction false} OnlyTokenKeeps(ar: Arith, q: TokenMatrix, tokens: seq<IndexedToken>, allowed: set<Text>,
          budget: nat, dimensions: nat, i: nat, n: nat)
    requires Scorable(q, dimensions) && Fits(tokens, dimensions) && i < n <= |q.mask| && q.mask[i]
             && Count(q.mask[..n]) == 1
    ensures AllKept(ar, q, tokens, allowed, budget, dimensions, n) == Kept(ar, q.values[i], tokens, allowed, budget)
  {
    assert q.mask[..n][..n - 1] == q.mask[..n - 1];
    CountPositive(q.mask[..n - 1]);
    if i == n - 1 {
      NoTokenKeepsNothing(ar, q, tokens, allowed, budget, dimensions, n - 1);
    } else {
      assert q.mask[..n - 1][i];
      OnlyTokenKeeps(ar, q, tokens, allowed, budget, dimensions, i, n - 1);
    }
  }

  lemma {:induction false} NoTokenKeepsNothing(ar: Arith, q: TokenMatrix, tokens: seq<IndexedToken>, allowed: set<Text>,
          budget: nat, dimensions: nat, n: nat)
    requires Scorable(q, dimensions) && Fits(tokens, dimensions) && n <= |q.mask| && Count(q.mask[..n]) == 0
    ensures AllKept(ar, q, tokens, allowed, budget, dimensions, n) == []
  {
    if n > 0 {
      assert q.mask[..n][..n - 1] == q.mask[..n - 1];
      NoTokenKeepsNothing(ar, q, tokens, allowed, budget, dimensions, n - 1);
    }
  }

  // The rows of one chunk among the kept rows are no more than its valid rows.
  lemma {:induction false} KeptPositionsAreValid(ar: Arith, q: seq<real>, tokens: seq<IndexedToken>, matrices: Matrices,
          allowed: set<Text>, budget: nat, most: nat)
    requires TokensOf(tokens, matrices) && Ready(matrices, |q|) && Fits(tokens, |q|)
             && AtMostRows(matrices, allowed, most)
    ensures var kept := Kept(ar, q, tokens, allowed, budget);
            DistinctRows(kept) && |kept| <= |KeptIds(kept)| * most
  {
    var kept := Kept(ar, q, tokens, allowed, budget);
    SortedRows(ar, q, tokens, matrices, allowed);
    RowBeforeIsStrictTotalOrder();
    KeptRowsDistinct(ar, q, tokens, matrices, allowed, budget);
    forall id | id in KeptIds(kept) ensures |PositionsOf(kept, id)| <= most {
      forall p: nat | p in PositionsOf(kept, id)
        ensures id in matrices && id in allowed && p in ValidPositions(matrices[id].mask)
      {
        PositionsSay(kept, id, p);
        var r :| r in kept && r.chunkId == id && r.position == p;
        ScoredRowIsValid(ar, q, tokens, matrices, allowed, r);
      }
      KeptIdsSay(kept, id);
      var r :| r in kept && r.chunkId == id;
      ScoredRowIsValid(ar, q, tokens, matrices, allowed, r);
      SubsetSize(PositionsOf(kept, id), ValidPositions(matrices[id].mask));
    }
    ManyRowsManyChunks(kept, most);
  }

  lemma {:induction false} KeptRowsDistinct(ar: Arith, q: seq<real>, tokens: seq<IndexedToken>, matrices: Matrices,
          allowed: set<Text>, budget: nat)
    requires TokensOf(tokens, matrices) && Ready(matrices, |q|) && Fits(tokens, |q|)
    ensures DistinctRows(Kept(ar, q, tokens, allowed, budget))
  {
    var kept := Kept(ar, q, tokens, allowed, budget);
    SortedRows(ar, q, tokens, matrices, allowed);
    forall i, j | 0 <= i < j < |kept|
      ensures kept[i].chunkId != kept[j].chunkId || kept[i].position != kept[j].position
    {
      assert RowBefore(kept[i], kept[j]);
      ScoredRowIsValid(ar, q, tokens, matrices, allowed, kept[i]);
      ScoredRowIsValid(ar, q, tokens, matrices, allowed, kept[j]);
      LessIrreflexive(kept[i].chunkId);
    }
  }

  // A chunk none of whose rows is kept is beaten by every chunk that has a kept row.
  lemma {:induction false} KeptChunkIsBetter(ar: Arith, q: TokenMatrix, tokens: seq<IndexedToken>, matrices: Matrices,
          allowed: set<Text>, budget: nat, c: MatrixContract, i: nat, id: Text, other: Text)
    requires Scorable(q, c.dimensions) && OnlyToken(q, i) && Ready(matrices, c.dimensions)
    requires TokensOf(tokens, matrices) && Fits(tokens, c.dimensions) && forall x :: ar.add(0.0, x) == x
    requires var kept := Kept(ar, q.values[i], tokens, allowed, budget); id in KeptIds(kept) && other !in KeptIds(kept)
    requires other in matrices && other in allowed
    ensures id in matrices && id in allowed
            && Better(Hit(id, Score(ar, q, matrices[id], c)), Hit(other, Score(ar, q, matrices[other], c)))
  {
    var row := q.values[i];
    var kept := Kept(ar, row, tokens, allowed, budget);
    var sorted := SortRows(Scored(ar, row, tokens, allowed));
    SortedRows(ar, row, tokens, matrices, allowed);
    KeptIdsSay(kept, id);
    var r :| r in kept && r.chunkId == id;
    ScoredRowIsValid(ar, row, tokens, matrices, allowed, r);
    SingleTokenScore(ar, q, matrices[id], c, i);
    SingleTokenScore(ar, q, matrices[other], c, i);
    var best := BestRow(ar, row, matrices[other], other);
    ScoredRowIsValid(ar, row, tokens, matrices, allowed, best);
    KeptIdsSay(kept, other);
    KeptComesFirst(sorted, Min(budget, |sorted|), r, best);
  }

  // If no row of some allowed chunk is kept, the budget is used up.
  lemma {:induction false} MissingMeansFull(ar: Arith, q: seq<real>, tokens: seq<IndexedToken>, matrices: Matrices,
          allowed: set<Text>, budget: nat, id: Text)
    requires TokensOf(tokens, matrices) && Ready(matrices, |q|) && Fits(tokens, |q|) && id in matrices && id in allowed
    requires id !in KeptIds(Kept(ar, q, tokens, allowed, budget))
    ensures |Kept(ar, q, tokens, allowed, budget)| == budget
  {
    var sorted := SortRows(Scored(ar, q, tokens, allowed));
    SortedRows(ar, q, tokens, matrices, allowed);
    var best := BestRow(ar, q, matrices[id], id);
    ScoredRowIsValid(ar, q, tokens, matrices, allowed, best);
    KeptIdsSay(Kept(ar, q, tokens, allowed, budget), id);
    assert sorted[..|sorted|] == sorted;
  }

  // The row that gives a chunk its score.
  lemma {:induction false} BestRow(ar: Arith, q: seq<real>, m: TokenMatrix, id: Text) returns (r: ScoredToken)
    requires Scorable(m, |q|) && true in m.mask
    ensures r.chunkId == id && r.position < |m.mask| && m.mask[r.position]
    ensures r.score == DotOf(ar, q, m.values[r.position]) == Best(ar, q, m)
  {
    var x := Best(ar, q, m);
    var j :| 0 <= j < |m.mask| && m.mask[j] && DotOf(ar, q, m.values[j]) == x;
    r := ScoredToken(id, j, x);
  }

  lemma {:induction false} KeptComesFirst(sorted: seq<ScoredToken>, n: nat, r: ScoredToken, later: ScoredToken)
    requires Ranked(RowBefore, sorted) && n <= |sorted| && r in sorted[..n] && later in sorted && later !in sorted[..n]
    ensures RowBefore(r, later) && n < |sorted|
  {
    var a :| 0 <= a < n && sorted[..n][a] == r;
    assert forall x :: 0 <= x < n ==> sorted[x] in sorted[..n];
    var b :| 0 <= b < |sorted| && sorted[b] == later;
    assert sorted[a] == r;
  }

  // ---------- the two sufficient budgets ----------

  // Room for every allowed row; or one valid query token and room for more rows than the
  // other TopK - 1 chunks can have.
  ghost predicate Suffices(ar: Arith, q: TokenMatrix, tokens: seq<IndexedToken>, matrices: Matrices, allowed: set<Text>,
                           budget: nat, k: nat, most: nat)
  {
    AllowedRows(tokens, allowed) <= budget
    || (Count(q.mask) == 1 && (forall x :: ar.add(0.0, x) == x) && AtMostRows(matrices, allowed, most)
        && k >= 1 && budget >= (k - 1) * most + 1)
  }

  ghost predicate IsCandidate(ar: Arith, q: TokenMatrix, tokens: seq<IndexedToken>, allowed: set<Text>, budget: nat,
                              dimensions: nat, id: Text)
    requires Scorable(q, dimensions) && Fits(tokens, dimensions)
  {
    BestOf(AllKept(ar, q, tokens, allowed, budget, dimensions, |q.mask|), id).Some?
  }

  // Each of the k best chunks is a candidate.
  lemma {:induction false} BestAreCandidates(ar: Arith, q: TokenMatrix, tokens: seq<IndexedToken>, matrices: Matrices,
          allowed: set<Text>, budget: nat, k: nat, most: nat, c: MatrixContract, full: seq<Hit>, n: nat)
    requires Scorable(q, c.dimensions) && true in q.mask && Ready(matrices, c.dimensions)
    requires TokensOf(tokens, matrices) && Fits(tokens, c.dimensions)
    requires Suffices(ar, q, tokens, matrices, allowed, budget, k, most)
    requires Ranked(Better, full) && Elements(full) == ExactHits(ar, q, matrices, allowed, c) && n < |full| && n < k
    ensures IsCandidate(ar, q, tokens, allowed, budget, c.dimensions, full[n].id)
  {
    assert full[n] in Elements(full);
    if AllowedRows(tokens, allowed) <= budget {
      EveryChunkIsCandidate(ar, q, tokens, matrices, allowed, budget, c.dimensions, full[n].id);
    } else {
      var i :| 0 <= i < |q.mask| && q.mask[i];
      SingleTokenBestAreCandidates(ar, q, tokens, matrices, allowed, budget, k, most, c, full, n, i);
    }
  }

  lemma {:induction false} SingleTokenBestAreCandidates(ar: Arith, q: TokenMatrix, tokens: seq<IndexedToken>,
          matrices: Matrices, allowed: set<Text>, budget: nat, k: nat, most: nat, c: MatrixContract, full: seq<Hit>,
          n: nat, i: nat)
    requires Scorable(q, c.dimensions) && OnlyToken(q, i) && Ready(matrices, c.dimensions)
    requires TokensOf(tokens, matrices) && Fits(tokens, c.dimensions) && forall x :: ar.add(0.0, x) == x
    requires AtMostRows(matrices, allowed, most) && k >= 1 && budget >= (k - 1) * most + 1
    requires Ranked(Better, full) && Elements(full) == ExactHits(ar, q, matrices, allowed, c) && n < |full| && n < k
    ensures IsCandidate(ar, q, tokens, allowed, budget, c.dimensions, full[n].id)
  {
    var kept := Kept(ar, q.values[i], tokens, allowed, budget);
    assert q.mask[..|q.mask|] == q.mask;
    OnlyTokenKeeps(ar, q, tokens, allowed, budget, c.dimensions, i, |q.mask|);
    assert full[n] in Elements(full);
    var id := full[n].id;
    if id !in KeptIds(kept) {
      KeptPositionsAreValid(ar, q.values[i], tokens, matrices, allowed, budget, most);
      MissingMeansFull(ar, q.values[i], tokens, matrices, allowed, budget, id);
      forall other | other in KeptIds(kept) ensures exists h :: h in full && h.id == other && Better(h, full[n]) {
        KeptChunkIsBetter(ar, q, tokens, matrices, allowed, budget, c, i, other, id);
        var h := Hit(other, Score(ar, q, matrices[other], c));
        assert h in Elements(full);
      }
      EnoughChunks(|KeptIds(kept)|, k, most, |kept|, budget);
      CrowdedOut(full, n, KeptIds(kept), k);
    }
  }

  lemma {:induction false} EnoughChunks(chunks: nat, k: nat, most: nat, kept: nat, budget: nat)
    requires kept <= chunks * most && k >= 1 && budget >= (k - 1) * most + 1 && kept == budget
    ensures chunks >= k
  {
    if chunks <= k - 1 {
      Fewer(chunks, k - 1, most);
    }
  }

  lemma {:induction false} Fewer(a: nat, b: nat, most: nat)
    requires a <= b
    ensures a * most <= b * most
    decreases b
  {
    if a < b {
      Fewer(a, b - 1, most);
    }
  }
}
