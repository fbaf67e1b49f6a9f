// Queries against an opened snapshot, with the exact re-scoring and the verify branch.
module SparseQuery {
  import opened Basics
  import opened Bytes
  import opened Sorting
  import opened Ranking
  import opened Corpus
  import opened SparseVectors
  import opened SparseSearch
  import opened SparsePostings
  import opened SparseIndex

  const MAX_TOP_K := 1000
  const TOLERANCE := 0.000001

  datatype Query = Query(
    ref: Ref, moduleId: string, releaseId: string, generation: int, revisions: seq<Text>, blankText: bool, topK: int)

  datatype Candidate = Candidate(chunk: Chunk, query: Query, score: real, backendScore: real, rank: nat)

  datatype Answer = Invalid | EncoderFailed | Missed | Found(candidates: seq<Candidate>)

  // ---------- specification ----------

  predicate FitsSnapshot(s: Snapshot, q: Query) {
    q.ref == s.ref && q.moduleId == s.manifest.moduleId && q.releaseId == s.manifest.releaseId
    && q.generation == s.index.header.generation && 1 <= q.topK <= MAX_TOP_K && !q.blankText
  }

  // The chunks of the listed revisions.
  function Allowed(s: Snapshot, revisions: seq<Text>): set<Text> {
    set id | id in s.rows && s.rows[id].chunk.revisionId in revisions
  }

  // The exact answer over all rows the snapshot holds.
  ghost predicate IsExactAnswer(ar: Arith, s: Snapshot, parts: seq<Shard>, q: Query, v: SparseValues,
          cs: seq<Candidate>)
    requires Holds(s, parts) && Ordered(v) && q.topK >= 0
  {
    IsTop(HitsOf(cs), PositiveHits(ar, v, VectorsOf(AllRows(parts)), Allowed(s, q.revisions)), q.topK)
    && forall i :: 0 <= i < |cs| ==>
         cs[i].rank == i + 1 && cs[i].backendScore == cs[i].score && cs[i].query == q
         && cs[i].chunk.id in s.rows && s.rows[cs[i].chunk.id].chunk == cs[i].chunk
  }

  function HitsOf(cs: seq<Candidate>): seq<Hit> {
    seq(|cs|, i requires 0 <= i < |cs| => Hit(cs[i].chunk.id, cs[i].score))
  }

  // ---------- lemmas ----------

  lemma {:induction false} RowsAndVectorsAgree(rows: seq<Row>)
    ensures ById(rows).Keys == VectorsOf(rows).Keys
    ensures forall id :: id in ById(rows) ==>
              ById(rows)[id].vector == VectorsOf(rows)[id] && ById(rows)[id].chunk.id == id
  {
    if rows != [] {
      RowsAndVectorsAgree(rows[..|rows| - 1]);
    }
  }

  // What the backend returned: allowed rows, each once, with their exact positive score.
  ghost predicate BackendHits(ar: Arith, v: SparseValues, rows: map<Text, Row>, allowed: set<Text>, hits: seq<Hit>)
    requires Ordered(v)
  {
    Ranked(Better, hits) && (forall i, j :: 0 <= i < j < |hits| ==> hits[i].id != hits[j].id)
    && forall i :: 0 <= i < |hits| ==>
         hits[i].id in rows && hits[i].id in allowed && rows[hits[i].id].chunk.id == hits[i].id
         && Ordered(rows[hits[i].id].vector) && rows[hits[i].id].vector.indices != []
         && hits[i].score == Inner(ar, v, rows[hits[i].id].vector) && hits[i].score > 0.0
  }

  lemma {:induction false} TopHitsAreSound(ar: Arith, v: SparseValues, s: Snapshot, parts: seq<Shard>,
          allowed: set<Text>, hits: seq<Hit>, k: nat)
    requires Holds(s, parts) && Ordered(v)
    requires IsTop(hits, PositiveHits(ar, v, VectorsOf(AllRows(parts)), allowed), k)
    ensures BackendHits(ar, v, s.rows, allowed, hits) && |hits| <= k
  {
    var all := PositiveHits(ar, v, VectorsOf(AllRows(parts)), allowed);
    RowsAndVectorsAgree(AllRows(parts));
    TopIsRanked(hits, all, k);
    forall i | 0 <= i < |hits| ensures hits[i] in all {
      assert hits[i] in hits;
    }
    RankedIdsDistinct(hits);
  }

  // ---------- operations ----------

  // Each hit again: it must be an allowed row, seen once, and is scored by the exact inner product.
  method Rescore(ar: Arith, s: Snapshot, q: Query, v: SparseValues, allowed: set<Text>, hits: seq<Hit>)
    returns (ok: bool, seen: set<Text>, cs: seq<Candidate>)
    requires Ordered(v) && v.indices != [] && BackendHits(ar, v, s.rows, allowed, hits)
    ensures ok && seen == IdsIn(hits) && HitsOf(cs) == hits
    ensures forall i :: 0 <= i < |cs| ==>
              cs[i] == Candidate(s.rows[hits[i].id].chunk, q, hits[i].score, hits[i].score, 0)
  {
    ok, seen, cs := true, {}, [];
    for i := 0 to |hits|
      invariant |cs| == i && seen == IdsIn(hits[..i])
      invariant forall k :: 0 <= k < i ==>
                  cs[k] == Candidate(s.rows[hits[k].id].chunk, q, hits[k].score, hits[k].score, 0)
    {
      var h := hits[i];
      if h.id !in s.rows || h.id !in allowed || h.id in seen {
        return false, seen, cs;
      }
      assert hits[..i + 1] == hits[..i] + [h];
      seen := seen + {h.id};
      var score := Dot(ar, v, s.rows[h.id].vector);
      if !score.Ok? {
        return false, seen, cs;
      }
      if score.value > 0.0 {
        cs := cs + [Candidate(s.rows[h.id].chunk, q, score.value, h.score, 0)];
      }
    }
    assert hits[..|hits|] == hits;
  }

  predicate CandidateBefore(a: Candidate, b: Candidate) {
    a.score > b.score || (a.score == b.score && Less(a.chunk.id, b.chunk.id))
  }

  lemma {:induction false} RankedCandidatesAreSorted(cs: seq<Candidate>)
    requires Ranked(Better, HitsOf(cs))
    ensures Sorted(CandidateBefore, cs)
  {
    BetterIsStrictTotalOrder();
    forall i, j | 0 <= i < j < |cs| ensures !CandidateBefore(cs[j], cs[i]) {
      assert Better(HitsOf(cs)[i], HitsOf(cs)[j]);
      assert CandidateBefore(cs[j], cs[i]) ==> Better(HitsOf(cs)[j], HitsOf(cs)[i]);
    }
  }

  function WithRanks(cs: seq<Candidate>): seq<Candidate> {
    seq(|cs|, i requires 0 <= i < |cs| => cs[i].(rank := i + 1))
  }

  // The verify branch: the answer against the truth of a second exact search.
  method VerifyAnswer(ar: Arith, s: Snapshot, ghost parts: seq<Shard>, v: SparseValues, allowed: set<Text>, k: nat,
                      ghost hits: seq<Hit>, seen: set<Text>, scores: seq<real>) returns (ok: bool)
    requires Holds(s, parts) && Ordered(v) && IsTop(hits, PositiveHits(ar, v, VectorsOf(AllRows(parts)), allowed), k)
    requires Ranked(Better, hits) && seen == IdsIn(hits) && scores == Scores(hits)
    ensures ok
  {
    ghost var vectors := VectorsOf(AllRows(parts));
    var truth := Search(ar, v, vectors, s.lists, allowed, k);
    TopIsUnique(hits, truth, PositiveHits(ar, v, vectors, allowed), k);
    ExactIsWithinBoundary(truth, TOLERANCE);
    ok := CompareBoundary(scores, seen, truth, TOLERANCE);
  }

  // A query is refused, empty, or answered exactly; `verify` never turns an answer down.
  method SearchSnapshot(ar: Arith, cfg: Config, s: Snapshot, ghost parts: seq<Shard>, q: Query,
          encoded: Option<SparseValues>, verify: bool)
    returns (r: Answer)
    requires Holds(s, parts) && (encoded.Some? ==> ValidVector(encoded.value, cfg.contract))
    ensures r.Invalid? <==>
              q.ref != s.ref || q.moduleId != s.manifest.moduleId || q.releaseId != s.manifest.releaseId
              || q.generation != s.index.header.generation || q.topK < 1 || q.topK > 1000 || q.blankText
              || !GoodRevisions(q.revisions)
    ensures !r.Invalid? && Allowed(s, q.revisions) == {} ==> r == Found([])
    ensures !r.Invalid? && Allowed(s, q.revisions) != {} && encoded.None? ==> r == EncoderFailed
    ensures !r.Invalid? && Allowed(s, q.revisions) != {} && encoded.Some? ==>
              r.Found? && IsExactAnswer(ar, s, parts, q, encoded.value, r.candidates)
  {
    if !FitsSnapshot(s, q) {
      return Invalid;
    }
    var ok := CheckRevisions(q.revisions);
    if !ok {
      return Invalid;
    }
    var allowed := Allowed(s, q.revisions);
    if allowed == {} {
      return Found([]);
    }
    if encoded.None? {
      return EncoderFailed;
    }
    var v := encoded.value;
    ghost var vectors := VectorsOf(AllRows(parts));
    var hits := Search(ar, v, vectors, s.lists, allowed, q.topK);
    TopHitsAreSound(ar, v, s, parts, allowed, hits, q.topK);
    var seen, cs;
    ok, seen, cs := Rescore(ar, s, q, v, allowed, hits);
    if !ok || |cs| > q.topK {
      return Invalid;
    }
    RankedCandidatesAreSorted(cs);
    SortKeepsSorted(CandidateBefore, cs);
    cs := Sort(CandidateBefore, cs);
    if verify {
      ok := VerifyAnswer(ar, s, parts, v, allowed, q.topK, hits, seen, Scores(HitsOf(cs)));
      if !ok {
        return Missed;
      }
    }
    assert HitsOf(WithRanks(cs)) == HitsOf(cs);
    assert forall i :: 0 <= i < |cs| ==> cs[i].chunk.id == hits[i].id;
    r := Found(WithRanks(cs));
  }
}
