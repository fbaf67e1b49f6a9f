// What an opened token-row index and its answers say, field by field and chunk by chunk.
module TokenLaws {
  import opened Basics
  import opened Bytes
  import opened Sorting
  import opened Ranking
  import opened Corpus
  import opened SparseVectors
  import opened MaxSimScore
  import opened TokenSearch
  import opened TokenQuery
  import opened TokenService
  import opened TokenIndex

  // ---------- opened indexes ----------

  // An index that opens belongs to this lane and to its manifest.
  lemma {:induction false} OpenedMatchesManifest(ar: Arith, cfg: IndexConfig, stored: Shards, idx: LaneIndex,
          m: ChunkManifest)
    requires TokenIndex.Accepts(ar, cfg, stored, idx, m)
    ensures idx.schemaVersion == 1 && idx.header.buildId != "" && idx.header.generation >= 1
    ensures idx.inputManifestHash == m.inputManifestHash && idx.header.profile == cfg.profile && |idx.shards| >= 1
  {
  }

  // Each of its shards was stored under the declared reference for this very build, by the same
  // model, with the declared chunks in the declared order, every matrix valid and under its own
  // hash, and a list of exactly its valid rows.
  lemma {:induction false} OpenedShardMatches(ar: Arith, cfg: IndexConfig, stored: Shards, idx: LaneIndex,
          m: ChunkManifest, i: nat)
    requires TokenIndex.Accepts(ar, cfg, stored, idx, m) && i < |idx.shards|
    ensures var d := idx.shards[i];
            d.artifact in stored
            && var part := stored[d.artifact];
               part.schemaVersion == 1 && part.header == idx.header && part.binding == cfg.binding
               && part.moduleId == m.moduleId && part.releaseId == m.releaseId
               && 0 <= part.usage.promptTokens <= part.usage.totalTokens
               && |part.rows| == |d.chunkIds| >= 1
               && (forall t :: t in part.tokenRows <==> IsActive(part.rows, t.chunkId, t.position))
               && forall k :: 0 <= k < |part.rows| ==>
                    part.rows[k].row.chunk.id == d.chunkIds[k] && part.rows[k].row.chunk in m.chunks
                    && part.rows[k].matrixHash == cfg.matrixHash(part.rows[k].row.matrix)
                    && ValidMatrix(ar, part.rows[k].row.matrix, cfg.contract)
  {
    hide ValidMatrix, TokenRowsOf, IsActive;
    var d := idx.shards[i];
    var part := stored[d.artifact];
    TokenRowsSay(part.rows);
    forall k | 0 <= k < |part.rows| ensures MatrixFits(ar, cfg, m.chunks, part.rows[k], d.chunkIds[k]) {
    }
  }

  // ---------- answers ----------

  // Whatever is answered is the chunk of a listed revision, as the snapshot holds it.
  lemma {:induction false} AnswersAreListed(ar: Arith, c: MatrixContract, s: TokenSnapshot, m: TokenMatrix,
          revisions: seq<Text>, budget: nat, candidate: TokenCandidate)
    requires Scorable(m, c.dimensions) && Fits(s.tokens, c.dimensions)
    requires FromKept(ar, c, s, m, Allowed(s, revisions), budget, candidate)
    ensures candidate.chunk.revisionId in revisions && candidate.chunk.id in s.rows
            && s.rows[candidate.chunk.id].chunk == candidate.chunk
  {
  }

  // In an exact answer every chunk has its complete score, and every chunk of a listed revision
  // is there unless k better ones are.
  lemma {:induction false} ExactAnswerSays(ar: Arith, c: MatrixContract, s: TokenSnapshot, m: TokenMatrix,
          revisions: seq<Text>, k: nat, cs: seq<TokenCandidate>, id: Text)
    requires Scorable(m, c.dimensions) && true in m.mask && Ready(MatricesOf(s.rows), c.dimensions)
    requires IsTop(HitsOf(cs), ExactHits(ar, m, MatricesOf(s.rows), Allowed(s, revisions), c), k)
    requires id in s.rows && s.rows[id].chunk.revisionId in revisions
    ensures |cs| <= k
    ensures forall i :: 0 <= i < |cs| ==>
              cs[i].chunk.id in s.rows && s.rows[cs[i].chunk.id].chunk.revisionId in revisions
              && cs[i].score == Score(ar, m, MatricesOf(s.rows)[cs[i].chunk.id], c)
    ensures (exists i :: 0 <= i < |cs| && cs[i].chunk.id == id)
            || (|cs| == k
                && forall i :: 0 <= i < |cs| ==>
                     var x := Score(ar, m, MatricesOf(s.rows)[id], c);
                     cs[i].score > x || (cs[i].score == x && Less(cs[i].chunk.id, id)))
  {
    hide Score, IsTop, Scorable;
    var all := ExactHits(ar, m, MatricesOf(s.rows), Allowed(s, revisions), c);
    TopIsRanked(HitsOf(cs), all, k);
    forall i | 0 <= i < |cs| ensures HitsOf(cs)[i] in all && HitsOf(cs)[i] == Hit(cs[i].chunk.id, cs[i].score) {
      assert HitsOf(cs)[i] in HitsOf(cs);
    }
    var h := Hit(id, Score(ar, m, MatricesOf(s.rows)[id], c));
    assert h in all;
    if h in HitsOf(cs) {
      var i :| 0 <= i < |cs| && HitsOf(cs)[i] == h;
      assert cs[i].chunk.id == id;
    } else {
      TopBeatsTheRest(HitsOf(cs), all, k, h);
      forall i | 0 <= i < |cs| ensures cs[i].score > h.score || (cs[i].score == h.score && Less(cs[i].chunk.id, id)) {
        assert Better(HitsOf(cs)[i], h);
      }
    }
  }
}
