// The token-row index: for each valid query token the best rows of all allowed chunks, the
// best row of each chunk as a candidate, and complete late interaction over the candidates.
module TokenSearch {
  import opened Basics
  import opened Bytes
  import opened Sorting
  import opened Ranking
  import opened SparseVectors
  import opened MaxSimScore

  datatype IndexedToken = IndexedToken(chunkId: Text, position: nat, vector: seq<real>)

  datatype ScoredToken = ScoredToken(chunkId: Text, position: nat, score: real)

  type Matrices = map<Text, TokenMatrix>

  // ---------- the token rows of a snapshot ----------

  ghost predicate Ready(matrices: Matrices, dimensions: nat) {
    forall id :: id in matrices ==> Scorable(matrices[id], dimensions) && true in matrices[id].mask
  }

  predicate IsValidRow(matrices: Matrices, id: Text, position: int) {
    id in matrices && 0 <= position < |matrices[id].mask| && |matrices[id].values| == |matrices[id].mask|
    && matrices[id].mask[position]
  }

  ghost predicate HasRow(tokens: seq<IndexedToken>, id: Text, position: int) {
    exists i :: 0 <= i < |tokens| && tokens[i].chunkId == id && tokens[i].position == position
  }

  // The tokens are the valid rows of the matrices, each once.
  ghost predicate TokensOf(tokens: seq<IndexedToken>, matrices: Matrices) {
    (forall i :: 0 <= i < |tokens| ==>
       IsValidRow(matrices, tokens[i].chunkId, tokens[i].position)
       && tokens[i].vector == matrices[tokens[i].chunkId].values[tokens[i].position])
    && (forall i, j :: 0 <= i < j < |tokens| ==>
         tokens[i].chunkId != tokens[j].chunkId || tokens[i].position != tokens[j].position)
    && (forall id, p :: IsValidRow(matrices, id, p) ==> HasRow(tokens, id, p))
  }

  // ---------- scored rows of one query token ----------

  predicate RowBefore(a: ScoredToken, b: ScoredToken) {
    a.score > b.score
    || (a.score == b.score && (Less(a.chunkId, b.chunkId) || (a.chunkId == b.chunkId && a.position < b.position)))
  }

  lemma {:induction false} RowBeforeIsStrictTotalOrder()
    ensures StrictTotalOrder(RowBefore)
  {
    forall a ensures !RowBefore(a, a) {
      LessIrreflexive(a.chunkId);
    }
    forall a, b, c | RowBefore(a, b) && RowBefore(b, c) ensures RowBefore(a, c) {
      if Less(a.chunkId, b.chunkId) && Less(b.chunkId, c.chunkId) {
        LessTransitive(a.chunkId, b.chunkId, c.chunkId);
      }
    }
    forall a, b ensures a == b || RowBefore(a, b) || RowBefore(b, a) {
      LessTotal(a.chunkId, b.chunkId);
    }
  }

  predicate Fits(tokens: seq<IndexedToken>, dimensions: nat) {
    forall i :: 0 <= i < |tokens| ==> |tokens[i].vector| == dimensions
  }

  // The allowed rows, scored against one query row, in index order.
  function Scored(ar: Arith, q: seq<real>, tokens: seq<IndexedToken>, allowed: set<Text>): seq<ScoredToken>
    requires Fits(tokens, |q|)
  {
    if tokens == [] then []
    else
      var t := tokens[|tokens| - 1];
      Scored(ar, q, tokens[..|tokens| - 1], allowed)
      + (if t.chunkId in allowed then [ScoredToken(t.chunkId, t.position, DotOf(ar, q, t.vector))] else [])
  }

  function AllowedRows(tokens: seq<IndexedToken>, allowed: set<Text>): nat {
    if tokens == [] then 0
    else AllowedRows(tokens[..|tokens| - 1], allowed) + (if tokens[|tokens| - 1].chunkId in allowed then 1 else 0)
  }

  lemma {:induction false} ScoredSays(ar: Arith, q: seq<real>, tokens: seq<IndexedToken>, allowed: set<Text>,
          r: ScoredToken)
    requires Fits(tokens, |q|)
    ensures |Scored(ar, q, tokens, allowed)| == AllowedRows(tokens, allowed)
    ensures r in Scored(ar, q, tokens, allowed) <==>
              r.chunkId in allowed && exists i :: 0 <= i < |tokens| && tokens[i].chunkId == r.chunkId
                                                  && tokens[i].position == r.position
                                                  && DotOf(ar, q, tokens[i].vector) == r.score
  {
    if tokens != [] {
      var rest := tokens[..|tokens| - 1];
      ScoredSays(ar, q, rest, allowed, r);
      assert forall i :: 0 <= i < |rest| ==> tokens[i] == rest[i];
    }
  }

  lemma {:induction false} ScoredDistinct(ar: Arith, q: seq<real>, tokens: seq<IndexedToken>, allowed: set<Text>)
    requires Fits(tokens, |q|)
    requires forall i, j :: 0 <= i < j < |tokens| ==>
               tokens[i].chunkId != tokens[j].chunkId || tokens[i].position != tokens[j].position
    ensures Distinct(Scored(ar, q, tokens, allowed))
    ensures DistinctRows(Scored(ar, q, tokens, allowed))
  {
    if tokens != [] {
      var rest, t := tokens[..|tokens| - 1], tokens[|tokens| - 1];
      ScoredDistinct(ar, q, rest, allowed);
      var before := Scored(ar, q, rest, allowed);
      forall i | 0 <= i < |before| ensures before[i].chunkId != t.chunkId || before[i].position != t.position {
        ScoredSays(ar, q, rest, allowed, before[i]);
      }
    }
  }

  predicate DistinctRows(rows: seq<ScoredToken>) {
    forall i, j :: 0 <= i < j < |rows| ==> rows[i].chunkId != rows[j].chunkId || rows[i].position != rows[j].position
  }

  function SortRows(rows: seq<ScoredToken>): seq<ScoredToken> {
    Sort(RowBefore, rows)
  }

  // The rows one query token keeps within its budget.
  function Kept(ar: Arith, q: seq<real>, tokens: seq<IndexedToken>, allowed: set<Text>, budget: nat): seq<ScoredToken>
    requires Fits(tokens, |q|)
  {
    var sorted := SortRows(Scored(ar, q, tokens, allowed));
    sorted[..Min(budget, |sorted|)]
  }

  // The rows all valid query tokens keep, token by token.
  function AllKept(ar: Arith, q: TokenMatrix, tokens: seq<IndexedToken>, allowed: set<Text>, budget: nat,
          dimensions: nat, n: nat)
    : seq<ScoredToken>
    requires Scorable(q, dimensions) && Fits(tokens, dimensions) && n <= |q.mask|
  {
    if n == 0 then []
    else if !q.mask[n - 1] then AllKept(ar, q, tokens, allowed, budget, dimensions, n - 1)
    else
      AllKept(ar, q, tokens, allowed, budget, dimensions, n - 1)
      + Kept(ar, q.values[n - 1], tokens, allowed, budget)
  }

  // The best score among the rows of one chunk.
  function BestOf(rows: seq<ScoredToken>, id: Text): (r: Option<real>)
    ensures r.Some? <==> exists i :: 0 <= i < |rows| && rows[i].chunkId == id
    ensures forall i :: 0 <= i < |rows| && rows[i].chunkId == id ==> rows[i].score <= r.value
    ensures r.Some? ==> exists i :: 0 <= i < |rows| && rows[i].chunkId == id && rows[i].score == r.value
  {
    if rows == [] then None
    else
      var row, rest := rows[|rows| - 1], BestOf(rows[..|rows| - 1], id);
      if row.chunkId == id && (rest.None? || row.score > rest.value) then Some(row.score) else rest
  }

  ghost predicate BestMap(best: map<Text, real>, rows: seq<ScoredToken>) {
    forall id :: Found(best, id) == BestOf(rows, id)
  }

  function Found(best: map<Text, real>, id: Text): Option<real> {
    if id in best then Some(best[id]) else None
  }

  // ---------- the search ----------

  method ScoreRows(ar: Arith, q: seq<real>, tokens: seq<IndexedToken>, allowed: set<Text>)
    returns (rows: seq<ScoredToken>)
    requires |q| > 0 && Fits(tokens, |q|)
    ensures rows == Scored(ar, q, tokens, allowed)
  {
    rows := [];
    for i := 0 to |tokens|
      invariant rows == Scored(ar, q, tokens[..i], allowed)
    {
      assert tokens[..i + 1][..i] == tokens[..i];
      if tokens[i].chunkId in allowed {
        var score := DotProduct(ar, q, tokens[i].vector);
        rows := rows + [ScoredToken(tokens[i].chunkId, tokens[i].position, score.value)];
      }
    }
    assert tokens[..|tokens|] == tokens;
  }

  function Raise(best: map<Text, real>, row: ScoredToken): map<Text, real> {
    if row.chunkId !in best || row.score > best[row.chunkId] then best[row.chunkId := row.score] else best
  }

  lemma {:induction false} RaiseKeepsBest(best: map<Text, real>, rows: seq<ScoredToken>, row: ScoredToken)
    requires BestMap(best, rows)
    ensures BestMap(Raise(best, row), rows + [row])
  {
    assert (rows + [row])[..|rows|] == rows;
    forall id ensures Found(Raise(best, row), id) == BestOf(rows + [row], id) {
      assert Found(best, id) == BestOf(rows, id);
      assert Found(best, row.chunkId) == BestOf(rows, row.chunkId);
    }
  }

  method KeepBest(ghost before: seq<ScoredToken>, best: map<Text, real>, rows: seq<ScoredToken>)
    returns (next: map<Text, real>)
    requires BestMap(best, before)
    ensures BestMap(next, before + rows)
  {
    next := best;
    assert before + rows[..0] == before;
    for i := 0 to |rows|
      invariant BestMap(next, before + rows[..i])
    {
      RaiseKeepsBest(next, before + rows[..i], rows[i]);
      assert before + rows[..i] + [rows[i]] == before + rows[..i + 1];
      next := Raise(next, rows[i]);
    }
    assert rows[..|rows|] == rows;
  }

  // The rows each token observes.
  lemma {:induction false} ObservedOneMore(mask: seq<bool>, i: nat, rows: nat)
    requires i < |mask|
    ensures Count(mask[..i + 1]) * rows == Count(mask[..i]) * rows + (if mask[i] then rows else 0)
  {
    assert mask[..i + 1][..i] == mask[..i];
  }

  method CollectBest(ar: Arith, q: TokenMatrix, tokens: seq<IndexedToken>, allowed: set<Text>, budget: nat,
          dimensions: nat)
    returns (best: map<Text, real>, observed: nat)
    requires dimensions >= 1 && Scorable(q, dimensions) && Fits(tokens, dimensions)
    ensures BestMap(best, AllKept(ar, q, tokens, allowed, budget, dimensions, |q.mask|))
    ensures observed == Count(q.mask) * AllowedRows(tokens, allowed)
  {
    best, observed := map[], 0;
    for i := 0 to |q.values|
      invariant BestMap(best, AllKept(ar, q, tokens, allowed, budget, dimensions, i))
      invariant observed == Count(q.mask[..i]) * AllowedRows(tokens, allowed)
    {
      ObservedOneMore(q.mask, i, AllowedRows(tokens, allowed));
      if q.mask[i] {
        var rows := ScoreRows(ar, q.values[i], tokens, allowed);
        ScoredSays(ar, q.values[i], tokens, allowed, ScoredToken([], 0, 0.0));
        observed := observed + |rows|;
        rows := SortRows(rows);
        best := KeepBest(AllKept(ar, q, tokens, allowed, budget, dimensions, i), best, rows[..Min(budget, |rows|)]);
      }
    }
    assert q.mask[..|q.mask|] == q.mask;
  }

  // The candidate chunks with the best of their kept rows.
  method ExactSearch(ar: Arith, q: TokenMatrix, tokens: seq<IndexedToken>, allowed: set<Text>, budget: nat,
          dimensions: nat)
    returns (hits: seq<Hit>, observed: nat)
    requires dimensions >= 1 && Scorable(q, dimensions) && Fits(tokens, dimensions)
    ensures Ranked(Better, hits)
    ensures forall h :: h in hits <==>
              BestOf(AllKept(ar, q, tokens, allowed, budget, dimensions, |q.mask|), h.id) == Some(h.score)
    ensures observed == Count(q.mask) * AllowedRows(tokens, allowed)
  {
    var best;
    best, observed := CollectBest(ar, q, tokens, allowed, budget, dimensions);
    var out := HitsFrom(best);
    hits := SortHits(out);
    SortedBest(best, AllKept(ar, q, tokens, allowed, budget, dimensions, |q.mask|), out);
  }

  lemma {:induction false} SortedBest(best: map<Text, real>, kept: seq<ScoredToken>, out: seq<Hit>)
    requires BestMap(best, kept) && Distinct(out) && forall h :: h in out <==> Found(best, h.id) == Some(h.score)
    ensures Ranked(Better, SortHits(out)) && forall h :: h in SortHits(out) <==> BestOf(kept, h.id) == Some(h.score)
  {
    BetterIsStrictTotalOrder();
    SortRanks(Better, out);
    forall h ensures h in SortHits(out) <==> BestOf(kept, h.id) == Some(h.score) {
      assert h in Elements(SortHits(out)) <==> h in Elements(out);
      assert Found(best, h.id) == BestOf(kept, h.id);
    }
  }

  method HitsFrom(best: map<Text, real>) returns (out: seq<Hit>)
    ensures Distinct(out) && forall h :: h in out <==> Found(best, h.id) == Some(h.score)
  {
    out := [];
    var left := best.Keys;
    while left != {}
      invariant left <= best.Keys && Distinct(out)
      invariant forall h :: h in out <==> h.id !in left && Found(best, h.id) == Some(h.score)
      decreases |left|
    {
      var id :| id in left;
      out := out + [Hit(id, best[id])];
      left := left - {id};
    }
  }

  // ---------- when the candidates contain the exact answer ----------

  // The exact scores of the allowed chunks.
  ghost function ExactHits(ar: Arith, q: TokenMatrix, matrices: Matrices, allowed: set<Text>,
                           c: MatrixContract): set<Hit>
    requires Scorable(q, c.dimensions) && true in q.mask && Ready(matrices, c.dimensions)
  {
    set id | id in matrices && id in allowed :: Hit(id, Score(ar, q, matrices[id], c))
  }

  ghost function ValidPositions(mask: seq<bool>): set<nat> {
    set p: nat | p < |mask| && mask[p]
  }

  // Every allowed chunk has at most `most` valid rows.
  ghost predicate AtMostRows(matrices: Matrices, allowed: set<Text>, most: nat) {
    forall id :: id in matrices && id in allowed ==> |ValidPositions(matrices[id].mask)| <= most
  }

  function KeptIds(rows: seq<ScoredToken>): set<Text> {
    set i | 0 <= i < |rows| :: rows[i].chunkId
  }

  // What it means for a kept row to be a row of its chunk.
  lemma {:induction false} ScoredRowIsValid(ar: Arith, q: seq<real>, tokens: seq<IndexedToken>, matrices: Matrices,
          allowed: set<Text>, r: ScoredToken)
    requires TokensOf(tokens, matrices) && Ready(matrices, |q|) && Fits(tokens, |q|)
    ensures r in Scored(ar, q, tokens, allowed) <==>
              r.chunkId in allowed && IsValidRow(matrices, r.chunkId, r.position)
              && r.score == DotOf(ar, q, matrices[r.chunkId].values[r.position])
  {
    ScoredSays(ar, q, tokens, allowed, r);
    if IsValidRow(matrices, r.chunkId, r.position) {
      assert HasRow(tokens, r.chunkId, r.position);
      var i :| 0 <= i < |tokens| && tokens[i].chunkId == r.chunkId && tokens[i].position == r.position;
      assert tokens[i].vector == matrices[tokens[i].chunkId].values[tokens[i].position];
    }
  }

  // The sorted scored rows of a query token.
  lemma {:induction false} SortedRows(ar: Arith, q: seq<real>, tokens: seq<IndexedToken>, matrices: Matrices,
          allowed: set<Text>)
    requires TokensOf(tokens, matrices) && Fits(tokens, |q|)
    ensures var all := Scored(ar, q, tokens, allowed);
            Ranked(RowBefore, SortRows(all)) && |SortRows(all)| == |all| && forall r :: r in SortRows(all) <==> r in all
  {
    var all := Scored(ar, q, tokens, allowed);
    RowBeforeIsStrictTotalOrder();
    ScoredDistinct(ar, q, tokens, allowed);
    SortRanks(RowBefore, all);
    forall r ensures r in SortRows(all) <==> r in all {
      assert r in Elements(SortRows(all)) <==> r in Elements(all);
    }
  }

  lemma {:induction false} KeptByToken(ar: Arith, q: TokenMatrix, tokens: seq<IndexedToken>, allowed: set<Text>,
          budget: nat, dimensions: nat, i: nat, n: nat, r: ScoredToken)
    requires Scorable(q, dimensions) && Fits(tokens, dimensions) && i < n <= |q.mask| && q.mask[i]
    requires r in Kept(ar, q.values[i], tokens, allowed, budget)
    ensures r in AllKept(ar, q, tokens, allowed, budget, dimensions, n)
  {
    if i < n - 1 {
      KeptByToken(ar, q, tokens, allowed, budget, dimensions, i, n - 1, r);
    }
  }

  // With room for every allowed row, every allowed chunk is a candidate.
  lemma {:induction false} EveryChunkIsCandidate(ar: Arith, q: TokenMatrix, tokens: seq<IndexedToken>,
          matrices: Matrices, allowed: set<Text>, budget: nat, dimensions: nat, id: Text)
    requires Scorable(q, dimensions) && true in q.mask && Ready(matrices, dimensions)
    requires TokensOf(tokens, matrices) && Fits(tokens, dimensions)
    requires AllowedRows(tokens, allowed) <= budget && id in matrices && id in allowed
    ensures BestOf(AllKept(ar, q, tokens, allowed, budget, dimensions, |q.mask|), id).Some?
  {
    var i :| 0 <= i < |q.mask| && q.mask[i];
    var p :| 0 <= p < |matrices[id].mask| && matrices[id].mask[p];
    var r := ScoredToken(id, p, DotOf(ar, q.values[i], matrices[id].values[p]));
    ScoredRowIsValid(ar, q.values[i], tokens, matrices, allowed, r);
    ScoredSays(ar, q.values[i], tokens, allowed, r);
    SortedRows(ar, q.values[i], tokens, matrices, allowed);
    var sorted := SortRows(Scored(ar, q.values[i], tokens, allowed));
    assert sorted[..Min(budget, |sorted|)] == sorted;
    KeptByToken(ar, q, tokens, allowed, budget, dimensions, i, |q.mask|, r);
  }
}
