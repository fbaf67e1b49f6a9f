// A query against the token-row lane: candidates, complete re-scoring, and the verify branch.
module TokenService {
  import opened Basics
  import opened Bytes
  import opened Sorting
  import opened Ranking
  import opened Corpus
  import opened SparseVectors
  import opened MaxSimScore
  import opened TokenSearch
  import opened TokenQuery

  const MAX_TOP_K := 1000
  const TOLERANCE := 0.00000001

  datatype MatrixRow = MatrixRow(chunk: Chunk, matrix: TokenMatrix)

  datatype LaneConfig = LaneConfig(contract: MatrixContract, tokenTopK: nat)

  datatype TokenSnapshot = TokenSnapshot(
    ref: string, moduleId: string, releaseId: string, generation: int, rows: map<Text, MatrixRow>,
    tokens: seq<IndexedToken>)

  // tokenTopK 0 selects the configured budget.
  datatype Request = Request(
    ref: string, moduleId: string, releaseId: string, generation: int, revisions: seq<Text>, blankText: bool, topK: int,
    tokenTopK: int)

  datatype TokenCandidate = TokenCandidate(chunk: Chunk, score: real, backendScore: real, rank: nat)

  datatype TokenAnswer = Invalid | EncoderFailed | Missed | Found(candidates: seq<TokenCandidate>, budget: nat,
                                                                  observed: nat)

  // ---------- specification ----------

  function MatricesOf(rows: map<Text, MatrixRow>): Matrices {
    map id | id in rows :: rows[id].matrix
  }

  // A snapshot as it is opened: valid matrices under their chunk IDs, all valid rows listed.
  ghost predicate Opened(ar: Arith, c: MatrixContract, s: TokenSnapshot) {
    c.dimensions >= 1 && TokensOf(s.tokens, MatricesOf(s.rows))
    && forall id :: id in s.rows ==> s.rows[id].chunk.id == id && ValidMatrix(ar, s.rows[id].matrix, c)
  }

  predicate FitsRequest(cfg: LaneConfig, s: TokenSnapshot, q: Request) {
    q.ref == s.ref && q.moduleId == s.moduleId && q.releaseId == s.releaseId && q.generation == s.generation
    && 1 <= q.topK <= MAX_TOP_K && !q.blankText && 0 <= q.tokenTopK <= cfg.tokenTopK
  }

  function Allowed(s: TokenSnapshot, revisions: seq<Text>): set<Text> {
    set id | id in s.rows && s.rows[id].chunk.revisionId in revisions
  }

  function Budget(cfg: LaneConfig, q: Request): nat
    requires q.tokenTopK >= 0
  {
    if q.tokenTopK == 0 then cfg.tokenTopK else q.tokenTopK
  }

  function HitOf(c: TokenCandidate): Hit {
    Hit(c.chunk.id, c.score)
  }

  function HitsOf(cs: seq<TokenCandidate>): seq<Hit> {
    seq(|cs|, i requires 0 <= i < |cs| => HitOf(cs[i]))
  }

  // The candidates a search of this budget yields, as chunk IDs.
  ghost function CandidateIds(ar: Arith, c: MatrixContract, s: TokenSnapshot, m: TokenMatrix, allowed: set<Text>,
          budget: nat): set<Text>
    requires Scorable(m, c.dimensions) && Fits(s.tokens, c.dimensions)
  {
    set id | id in s.rows && IsCandidate(ar, m, s.tokens, allowed, budget, c.dimensions, id)
  }

  // A candidate is the chunk of an allowed row, with the best score of its kept token rows.
  ghost predicate FromKept(ar: Arith, c: MatrixContract, s: TokenSnapshot, m: TokenMatrix, allowed: set<Text>,
          budget: nat, candidate: TokenCandidate)
    requires Scorable(m, c.dimensions) && Fits(s.tokens, c.dimensions)
  {
    candidate.chunk.id in s.rows && candidate.chunk == s.rows[candidate.chunk.id].chunk
    && candidate.chunk.id in allowed
    && BestOf(AllKept(ar, m, s.tokens, allowed, budget, c.dimensions, |m.mask|), candidate.chunk.id)
       == Some(candidate.backendScore)
  }

  // The answer is within the boundary of the full-corpus truth.
  ghost predicate PassesTruth(ar: Arith, c: MatrixContract, s: TokenSnapshot, m: TokenMatrix, allowed: set<Text>,
          k: nat, out: seq<Hit>)
    requires ValidMatrix(ar, m, c) && Ready(MatricesOf(s.rows), c.dimensions)
  {
    forall truth :: IsTop(truth, ExactHits(ar, m, MatricesOf(s.rows), allowed, c), k) ==>
                      WithinBoundary(Scores(out), IdsIn(out), truth, TOLERANCE)
  }

  // ---------- lemmas ----------

  lemma {:induction false} OpenedIsReady(ar: Arith, c: MatrixContract, s: TokenSnapshot)
    requires Opened(ar, c, s)
    ensures Ready(MatricesOf(s.rows), c.dimensions) && Fits(s.tokens, c.dimensions)
  {
    var matrices := MatricesOf(s.rows);
    forall i | 0 <= i < |s.tokens| ensures |s.tokens[i].vector| == c.dimensions {
      assert IsValidRow(matrices, s.tokens[i].chunkId, s.tokens[i].position);
      assert ValidMatrix(ar, s.rows[s.tokens[i].chunkId].matrix, c);
    }
    forall id | id in matrices ensures Scorable(matrices[id], c.dimensions) && true in matrices[id].mask {
      assert ValidMatrix(ar, s.rows[id].matrix, c);
    }
  }

  predicate CandidateBefore(a: TokenCandidate, b: TokenCandidate) {
    a.score > b.score || (a.score == b.score && Less(a.chunk.id, b.chunk.id))
  }

  function SortCandidates(cs: seq<TokenCandidate>): seq<TokenCandidate> {
    Sort(CandidateBefore, cs)
  }

  lemma {:induction false} InsertCandidate(x: TokenCandidate, cs: seq<TokenCandidate>)
    ensures HitsOf(Insert(CandidateBefore, x, cs)) == Insert(Better, HitOf(x), HitsOf(cs))
  {
    if cs != [] {
      assert HitsOf(cs) == [HitOf(cs[0])] + HitsOf(cs[1..]);
      InsertCandidate(x, cs[1..]);
    }
  }

  // Sorting adds and loses no candidate.
  lemma {:induction false} SortKeepsCandidates(cs: seq<TokenCandidate>)
    ensures forall c :: c in SortCandidates(cs) <==> c in cs
  {
    if cs != [] {
      var rest := SortCandidates(cs[1..]);
      SortKeepsCandidates(cs[1..]);
      InsertPermutes(CandidateBefore, cs[0], rest);
      forall c ensures c in SortCandidates(cs) <==> c in cs {
        assert c in SortCandidates(cs) <==> multiset(SortCandidates(cs))[c] > 0;
        assert c in rest <==> multiset(rest)[c] > 0;
      }
    }
  }

  // Sorting candidates sorts their scores.
  lemma {:induction false} SortedCandidates(cs: seq<TokenCandidate>)
    ensures HitsOf(SortCandidates(cs)) == SortHits(HitsOf(cs))
  {
    if cs != [] {
      SortedCandidates(cs[1..]);
      InsertCandidate(cs[0], SortCandidates(cs[1..]));
      assert HitsOf(cs) == [HitOf(cs[0])] + HitsOf(cs[1..]);
    }
  }

  lemma {:induction false} SortedAndCut(cs: seq<TokenCandidate>, all: set<Hit>, k: nat)
    requires Distinct(HitsOf(cs)) && Elements(HitsOf(cs)) == all
    ensures var sorted := SortCandidates(cs); IsTop(HitsOf(if |sorted| > k then sorted[..k] else sorted), all, k)
  {
    SortedCandidates(cs);
    SortedTop(HitsOf(cs), all, k);
    var sorted := SortCandidates(cs);
    assert HitsOf(if |sorted| > k then sorted[..k] else sorted) == Top(HitsOf(sorted), k);
  }

  // A candidate chunk is an allowed row.
  lemma {:induction false} KeptRowsAreScored(ar: Arith, q: TokenMatrix, tokens: seq<IndexedToken>, matrices: Matrices,
          allowed: set<Text>, budget: nat, dimensions: nat, n: nat, r: ScoredToken)
    requires Scorable(q, dimensions) && Fits(tokens, dimensions) && TokensOf(tokens, matrices)
             && Ready(matrices, dimensions)
    requires n <= |q.mask| && r in AllKept(ar, q, tokens, allowed, budget, dimensions, n)
    ensures r.chunkId in matrices && r.chunkId in allowed
  {
    if !q.mask[n - 1] || r in AllKept(ar, q, tokens, allowed, budget, dimensions, n - 1) {
      KeptRowsAreScored(ar, q, tokens, matrices, allowed, budget, dimensions, n - 1, r);
    } else {
      SortedRows(ar, q.values[n - 1], tokens, matrices, allowed);
      ScoredRowIsValid(ar, q.values[n - 1], tokens, matrices, allowed, r);
    }
  }

  lemma {:induction false} CandidatesAreAllowed(ar: Arith, c: MatrixContract, s: TokenSnapshot, m: TokenMatrix,
          allowed: set<Text>, budget: nat, id: Text)
    requires Opened(ar, c, s) && Scorable(m, c.dimensions) && Fits(s.tokens, c.dimensions)
    requires IsCandidate(ar, m, s.tokens, allowed, budget, c.dimensions, id)
    ensures id in s.rows && id in allowed
  {
    OpenedIsReady(ar, c, s);
    var kept := AllKept(ar, m, s.tokens, allowed, budget, c.dimensions, |m.mask|);
    var i :| 0 <= i < |kept| && kept[i].chunkId == id;
    KeptRowsAreScored(ar, m, s.tokens, MatricesOf(s.rows), allowed, budget, c.dimensions, |m.mask|, kept[i]);
  }

  // A sufficient budget makes the answer over the candidates the answer over all chunks.
  lemma {:induction false} SufficientBudgetIsExact(ar: Arith, c: MatrixContract, s: TokenSnapshot, m: TokenMatrix,
          allowed: set<Text>, budget: nat, k: nat, most: nat, out: seq<Hit>)
    requires Opened(ar, c, s) && ValidMatrix(ar, m, c) && Ready(MatricesOf(s.rows), c.dimensions)
             && Fits(s.tokens, c.dimensions)
    requires Suffices(ar, m, s.tokens, MatricesOf(s.rows), allowed, budget, k, most)
    requires IsTop(out, ExactHits(ar, m, MatricesOf(s.rows), CandidateIds(ar, c, s, m, allowed, budget), c), k)
    ensures IsTop(out, ExactHits(ar, m, MatricesOf(s.rows), allowed, c), k)
  {
    var matrices := MatricesOf(s.rows);
    var all := ExactHits(ar, m, matrices, allowed, c);
    var ids := CandidateIds(ar, c, s, m, allowed, budget);
    var some := ExactHits(ar, m, matrices, ids, c);
    var listed := ListingExists(all);
    BetterIsStrictTotalOrder();
    SortRanks(Better, listed);
    var full := SortHits(listed);
    forall h | h in some ensures h in all {
      CandidatesAreAllowed(ar, c, s, m, allowed, budget, h.id);
    }
    forall n | 0 <= n < |full| && n < k ensures full[n] in some {
      assert full[n] in Elements(full);
      BestAreCandidates(ar, m, s.tokens, matrices, allowed, budget, k, most, c, full, n);
    }
    TopOfSome(full, some, out, k);
  }

  // ---------- operations ----------

  // Every candidate again, by complete late interaction.
  method Rescore(ar: Arith, c: MatrixContract, s: TokenSnapshot, m: TokenMatrix, allowed: set<Text>, hits: seq<Hit>)
    returns (ok: bool, cs: seq<TokenCandidate>)
    requires Opened(ar, c, s) && ValidMatrix(ar, m, c) && Ranked(Better, hits)
    requires forall i, j :: 0 <= i < j < |hits| ==> hits[i].id != hits[j].id
    requires forall i :: 0 <= i < |hits| ==> hits[i].id in s.rows && hits[i].id in allowed
    ensures ok && |cs| == |hits|
    ensures forall i :: 0 <= i < |cs| ==>
              ValidMatrix(ar, s.rows[hits[i].id].matrix, c)
              && cs[i] == TokenCandidate(s.rows[hits[i].id].chunk, Score(ar, m, s.rows[hits[i].id].matrix, c),
                                         hits[i].score, 0)
  {
    ok, cs := true, [];
    var seen: set<Text> := {};
    for i := 0 to |hits|
      invariant |cs| == i && seen == IdsIn(hits[..i])
      invariant forall k :: 0 <= k < i ==>
                  ValidMatrix(ar, s.rows[hits[k].id].matrix, c)
                  && cs[k] == TokenCandidate(s.rows[hits[k].id].chunk, Score(ar, m, s.rows[hits[k].id].matrix, c),
                                             hits[k].score, 0)
    {
      var h := hits[i];
      if h.id !in s.rows || h.id !in allowed || h.id in seen {
        return false, cs;
      }
      assert hits[..i + 1] == hits[..i] + [h];
      seen := seen + {h.id};
      assert ValidMatrix(ar, s.rows[h.id].matrix, c);
      var score := MaxSim(ar, m, s.rows[h.id].matrix, c);
      if score.None? {
        return false, cs;
      }
      cs := cs + [TokenCandidate(s.rows[h.id].chunk, score.value, h.score, 0)];
    }
  }

  // The full-corpus truth: every allowed chunk scored.
  method ExactTop(ar: Arith, c: MatrixContract, s: TokenSnapshot, m: TokenMatrix, allowed: set<Text>, k: nat)
    returns (truth: seq<Hit>)
    requires Opened(ar, c, s) && ValidMatrix(ar, m, c) && allowed <= s.rows.Keys
    ensures Ready(MatricesOf(s.rows), c.dimensions) && IsTop(truth, ExactHits(ar, m, MatricesOf(s.rows), allowed, c), k)
  {
    OpenedIsReady(ar, c, s);
    var out: seq<Hit> := [];
    var left := allowed;
    while left != {}
      invariant left <= allowed && Distinct(out)
      invariant forall h :: h in out <==> h in ExactHits(ar, m, MatricesOf(s.rows), allowed, c) && h.id !in left
      decreases |left|
    {
      var id :| id in left;
      assert ValidMatrix(ar, s.rows[id].matrix, c);
      var score := MaxSim(ar, m, s.rows[id].matrix, c);
      out := out + [Hit(id, score.value)];
      left := left - {id};
    }
    assert Elements(out) == ExactHits(ar, m, MatricesOf(s.rows), allowed, c);
    SortedTop(out, ExactHits(ar, m, MatricesOf(s.rows), allowed, c), k);
    truth := Top(SortHits(out), k);
  }

  // The candidates of a search, scored exactly and cut to the k best of them.
  method TopCandidates(ar: Arith, c: MatrixContract, s: TokenSnapshot, m: TokenMatrix, allowed: set<Text>, budget: nat,
          k: nat)
    returns (ok: bool, cs: seq<TokenCandidate>, observed: nat)
    requires Opened(ar, c, s) && ValidMatrix(ar, m, c) && Ready(MatricesOf(s.rows), c.dimensions)
             && Fits(s.tokens, c.dimensions)
    ensures ok && observed == Count(m.mask) * AllowedRows(s.tokens, allowed)
    ensures IsTop(HitsOf(cs), ExactHits(ar, m, MatricesOf(s.rows), CandidateIds(ar, c, s, m, allowed, budget), c), k)
    ensures forall candidate :: candidate in cs ==> FromKept(ar, c, s, m, allowed, budget, candidate)
  {
    hide AllKept, BestOf, ExactHits, IsTop, CandidateIds;
    var hits;
    hits, observed := ExactSearch(ar, m, s.tokens, allowed, budget, c.dimensions);
    forall i | 0 <= i < |hits| ensures hits[i].id in s.rows && hits[i].id in allowed {
      assert hits[i] in hits;
      CandidatesAreAllowed(ar, c, s, m, allowed, budget, hits[i].id);
    }
    HitsNameOnce(ar, m, s.tokens, allowed, budget, c.dimensions, hits);
    ok, cs := Rescore(ar, c, s, m, allowed, hits);
    RescoredHits(ar, c, s, m, allowed, budget, hits, cs);
    KeptCandidates(ar, c, s, m, allowed, budget, hits, cs);
    SortKeepsCandidates(cs);
    SortedAndCut(cs, ExactHits(ar, m, MatricesOf(s.rows), CandidateIds(ar, c, s, m, allowed, budget), c), k);
    ghost var all := cs;
    cs := SortCandidates(cs);
    if |cs| > k {
      cs := cs[..k];
    }
    assert forall candidate :: candidate in cs ==> candidate in all;
  }

  lemma {:induction false} KeptCandidates(ar: Arith, c: MatrixContract, s: TokenSnapshot, m: TokenMatrix,
          allowed: set<Text>, budget: nat, hits: seq<Hit>, cs: seq<TokenCandidate>)
    requires Scorable(m, c.dimensions) && Fits(s.tokens, c.dimensions)
    requires forall id :: id in s.rows ==> s.rows[id].chunk.id == id
    requires forall h :: h in hits <==>
               BestOf(AllKept(ar, m, s.tokens, allowed, budget, c.dimensions, |m.mask|), h.id) == Some(h.score)
    requires |cs| == |hits| && forall i :: 0 <= i < |cs| ==>
               hits[i].id in s.rows && hits[i].id in allowed && cs[i].chunk == s.rows[hits[i].id].chunk
               && cs[i].backendScore == hits[i].score
    ensures forall candidate :: candidate in cs ==> FromKept(ar, c, s, m, allowed, budget, candidate)
  {
    hide AllKept, BestOf, Scorable, Fits;
    forall candidate | candidate in cs ensures FromKept(ar, c, s, m, allowed, budget, candidate) {
      var i :| 0 <= i < |cs| && cs[i] == candidate;
      assert hits[i] in hits;
    }
  }

  lemma {:induction false} HitsNameOnce(ar: Arith, m: TokenMatrix, tokens: seq<IndexedToken>, allowed: set<Text>,
          budget: nat, dimensions: nat, hits: seq<Hit>)
    requires Scorable(m, dimensions) && Fits(tokens, dimensions) && Ranked(Better, hits)
    requires forall h :: h in hits <==>
               BestOf(AllKept(ar, m, tokens, allowed, budget, dimensions, |m.mask|), h.id) == Some(h.score)
    ensures forall i, j :: 0 <= i < j < |hits| ==> hits[i].id != hits[j].id
  {
    forall i, j | 0 <= i < |hits| && 0 <= j < |hits| && hits[i].id == hits[j].id
      ensures hits[i].score == hits[j].score
    {
      assert hits[i] in hits && hits[j] in hits;
    }
    RankedIdsDistinct(hits);
  }

  lemma {:induction false} RescoredHit(ar: Arith, c: MatrixContract, s: TokenSnapshot, m: TokenMatrix,
          allowed: set<Text>, budget: nat, hits: seq<Hit>, id: Text)
    requires Scorable(m, c.dimensions) && Fits(s.tokens, c.dimensions) && id in s.rows
    requires forall h :: h in hits <==>
               BestOf(AllKept(ar, m, s.tokens, allowed, budget, c.dimensions, |m.mask|), h.id) == Some(h.score)
    ensures (exists i :: 0 <= i < |hits| && hits[i].id == id) <==> id in CandidateIds(ar, c, s, m, allowed, budget)
  {
    var best := BestOf(AllKept(ar, m, s.tokens, allowed, budget, c.dimensions, |m.mask|), id);
    if i :| 0 <= i < |hits| && hits[i].id == id {
      assert hits[i] in hits;
    }
    if best.Some? {
      assert Hit(id, best.value) in hits;
    }
  }

  lemma {:induction false} RescoredHits(ar: Arith, c: MatrixContract, s: TokenSnapshot, m: TokenMatrix,
          allowed: set<Text>, budget: nat, hits: seq<Hit>, cs: seq<TokenCandidate>)
    requires Scorable(m, c.dimensions) && true in m.mask && Ready(MatricesOf(s.rows), c.dimensions)
             && Fits(s.tokens, c.dimensions)
    requires forall id :: id in s.rows ==>
               s.rows[id].chunk.id == id && Scorable(s.rows[id].matrix, c.dimensions) && true in s.rows[id].matrix.mask
    requires forall h :: h in hits <==>
               BestOf(AllKept(ar, m, s.tokens, allowed, budget, c.dimensions, |m.mask|), h.id) == Some(h.score)
    requires forall i, j :: 0 <= i < j < |hits| ==> hits[i].id != hits[j].id
    requires |cs| == |hits|
    requires forall i :: 0 <= i < |cs| ==>
               hits[i].id in s.rows
               && cs[i].chunk == s.rows[hits[i].id].chunk && cs[i].score == Score(ar, m, s.rows[hits[i].id].matrix, c)
    ensures Distinct(HitsOf(cs))
    ensures Elements(HitsOf(cs)) == ExactHits(ar, m, MatricesOf(s.rows), CandidateIds(ar, c, s, m, allowed, budget), c)
  {
    hide BestOf, AllKept, CandidateIds, Scorable, Fits, Score;
    var all := ExactHits(ar, m, MatricesOf(s.rows), CandidateIds(ar, c, s, m, allowed, budget), c);
    forall h ensures h in Elements(HitsOf(cs)) <==> h in all {
      if h in HitsOf(cs) {
        var i :| 0 <= i < |cs| && HitsOf(cs)[i] == h;
        RescoredHit(ar, c, s, m, allowed, budget, hits, hits[i].id);
      }
      if h in all {
        RescoredHit(ar, c, s, m, allowed, budget, hits, h.id);
        var i :| 0 <= i < |hits| && hits[i].id == h.id;
        assert HitsOf(cs)[i] == h;
      }
    }
    forall i, j | 0 <= i < j < |cs| ensures HitsOf(cs)[i] != HitsOf(cs)[j] {
      assert hits[i].id != hits[j].id;
    }
  }

  function WithRanks(cs: seq<TokenCandidate>): seq<TokenCandidate> {
    seq(|cs|, i requires 0 <= i < |cs| => cs[i].(rank := i + 1))
  }

  lemma {:induction false} RankedStillKept(ar: Arith, c: MatrixContract, s: TokenSnapshot, m: TokenMatrix,
          allowed: set<Text>, budget: nat, cs: seq<TokenCandidate>)
    requires Scorable(m, c.dimensions) && Fits(s.tokens, c.dimensions)
    requires forall candidate :: candidate in cs ==> FromKept(ar, c, s, m, allowed, budget, candidate)
    ensures HitsOf(WithRanks(cs)) == HitsOf(cs) && |WithRanks(cs)| == |cs|
    ensures forall i :: 0 <= i < |cs| ==>
              WithRanks(cs)[i].rank == i + 1 && FromKept(ar, c, s, m, allowed, budget, WithRanks(cs)[i])
  {
    hide BestOf, AllKept, Scorable, Fits;
    forall i | 0 <= i < |cs| ensures FromKept(ar, c, s, m, allowed, budget, WithRanks(cs)[i]) {
      assert cs[i] in cs;
    }
  }

  // The verify branch: the answer against full-corpus truth.
  method VerifyAnswer(ar: Arith, c: MatrixContract, s: TokenSnapshot, m: TokenMatrix, allowed: set<Text>, k: nat,
          out: seq<Hit>)
    returns (ok: bool)
    requires Opened(ar, c, s) && ValidMatrix(ar, m, c) && allowed <= s.rows.Keys
             && Ready(MatricesOf(s.rows), c.dimensions)
    ensures IsTop(out, ExactHits(ar, m, MatricesOf(s.rows), allowed, c), k) ==> ok
    ensures ok <==> PassesTruth(ar, c, s, m, allowed, k, out)
  {
    hide IsTop, WithinBoundary, ExactHits;
    var truth := ExactTop(ar, c, s, m, allowed, k);
    ExactPasses(ar, c, s, m, allowed, k, out, truth);
    ok := CompareBoundary(Scores(out), IdsIn(out), truth, TOLERANCE);
    ghost var all := ExactHits(ar, m, MatricesOf(s.rows), allowed, c);
    forall other | IsTop(other, all, k) ensures other == truth {
      TopIsUnique(other, truth, all, k);
    }
  }

  // What a query answers. Whatever the budget, the answer is exact over its candidates; with
  // a sufficient budget it is exact over all allowed chunks and `verify` never turns it down.
  method SearchTokens(ar: Arith, cfg: LaneConfig, s: TokenSnapshot, q: Request, encoded: Option<TokenMatrix>,
          verify: bool)
    returns (r: TokenAnswer)
    requires Opened(ar, cfg.contract, s) && (encoded.Some? ==> ValidMatrix(ar, encoded.value, cfg.contract))
    ensures r.Invalid? <==>
              q.ref != s.ref || q.moduleId != s.moduleId || q.releaseId != s.releaseId || q.generation != s.generation
              || q.topK < 1 || q.topK > 1000 || q.tokenTopK < 0 || q.tokenTopK > cfg.tokenTopK || q.blankText
              || !GoodRevisions(q.revisions)
    ensures !r.Invalid? && Allowed(s, q.revisions) == {} ==> r.Found? && r.candidates == []
    ensures !r.Invalid? && Allowed(s, q.revisions) != {} && encoded.None? ==> r == EncoderFailed
    ensures r.Missed? ==>
              verify && encoded.Some? && Ready(MatricesOf(s.rows), cfg.contract.dimensions)
              && Fits(s.tokens, cfg.contract.dimensions)
    ensures !r.Invalid? && Allowed(s, q.revisions) != {} && encoded.Some? ==>
              (r.Found? || r.Missed?)
              && forall most: nat ::
                   Suffices(ar, encoded.value, s.tokens, MatricesOf(s.rows), Allowed(s, q.revisions), Budget(cfg, q),
                            q.topK, most) ==>
                     r.Found? && Ready(MatricesOf(s.rows), cfg.contract.dimensions)
                     && IsTop(HitsOf(r.candidates),
                              ExactHits(ar, encoded.value, MatricesOf(s.rows), Allowed(s, q.revisions), cfg.contract),
                              q.topK)
    ensures r.Found? && Allowed(s, q.revisions) != {} ==>
              Fits(s.tokens, cfg.contract.dimensions) && Ready(MatricesOf(s.rows), cfg.contract.dimensions)
              && r.observed == Count(encoded.value.mask) * AllowedRows(s.tokens, Allowed(s, q.revisions))
              && IsTop(HitsOf(r.candidates),
                       ExactHits(ar, encoded.value, MatricesOf(s.rows),
                                 CandidateIds(ar, cfg.contract, s, encoded.value, Allowed(s, q.revisions),
                                              Budget(cfg, q)), cfg.contract),
                       q.topK)
              && r.budget == (if q.tokenTopK == 0 then cfg.tokenTopK else q.tokenTopK)
              && forall i :: 0 <= i < |r.candidates| ==>
                   r.candidates[i].rank == i + 1
                   && FromKept(ar, cfg.contract, s, encoded.value, Allowed(s, q.revisions), r.budget, r.candidates[i])
    ensures r.Found? && Allowed(s, q.revisions) != {} && verify ==>
              PassesTruth(ar, cfg.contract, s, encoded.value, Allowed(s, q.revisions), q.topK, HitsOf(r.candidates))
    ensures r.Missed? ==>
              exists out ::
                IsTop(out, ExactHits(ar, encoded.value, MatricesOf(s.rows),
                                     CandidateIds(ar, cfg.contract, s, encoded.value, Allowed(s, q.revisions),
                                                  Budget(cfg, q)), cfg.contract), q.topK)
                && !PassesTruth(ar, cfg.contract, s, encoded.value, Allowed(s, q.revisions), q.topK, out)
  {
    hide FromKept, PassesTruth, IsTop, ExactHits, CandidateIds, AllKept, BestOf, Suffices, WithRanks, HitsOf,
         GoodRevisions;
    hide Opened, TokensOf;
    if !FitsRequest(cfg, s, q) {
      return Invalid;
    }
    var ok := CheckRevisions(q.revisions);
    if !ok {
      return Invalid;
    }
    var allowed := Allowed(s, q.revisions);
    if allowed == {} {
      return Found([], 0, 0);
    }
    if encoded.None? {
      return EncoderFailed;
    }
    OpenedIsReady(ar, cfg.contract, s);
    var m := encoded.value;
    var budget := Budget(cfg, q);
    var cs, observed;
    ok, cs, observed := TopCandidates(ar, cfg.contract, s, m, allowed, budget, q.topK);
    forall most: nat | Suffices(ar, m, s.tokens, MatricesOf(s.rows), allowed, budget, q.topK, most)
      ensures IsTop(HitsOf(cs), ExactHits(ar, m, MatricesOf(s.rows), allowed, cfg.contract), q.topK)
    {
      SufficientBudgetIsExact(ar, cfg.contract, s, m, allowed, budget, q.topK, most, HitsOf(cs));
    }
    if verify {
      ok := VerifyAnswer(ar, cfg.contract, s, m, allowed, q.topK, HitsOf(cs));
      if !ok {
        return Missed;
      }
    }
    RankedStillKept(ar, cfg.contract, s, m, allowed, budget, cs);
    r := Found(WithRanks(cs), budget, observed);
  }

  // The exact answer passes the comparison with the truth.
  lemma {:induction false} ExactPasses(ar: Arith, c: MatrixContract, s: TokenSnapshot, m: TokenMatrix,
          allowed: set<Text>, k: nat, out: seq<Hit>, truth: seq<Hit>)
    requires ValidMatrix(ar, m, c) && Ready(MatricesOf(s.rows), c.dimensions)
    requires IsTop(truth, ExactHits(ar, m, MatricesOf(s.rows), allowed, c), k)
    ensures IsTop(out, ExactHits(ar, m, MatricesOf(s.rows), allowed, c), k) ==>
              WithinBoundary(Scores(out), IdsIn(out), truth, TOLERANCE)
  {
    var all := ExactHits(ar, m, MatricesOf(s.rows), allowed, c);
    if IsTop(out, all, k) {
      TopIsUnique(out, truth, all, k);
      TopIsRanked(truth, all, k);
      ExactIsWithinBoundary(truth, TOLERANCE);
    }
  }
}
