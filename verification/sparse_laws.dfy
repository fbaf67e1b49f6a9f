// What an opened sparse index and its answers say, field by field and chunk by chunk.
module SparseLaws {
  import opened Basics
  import opened Bytes
  import opened Sorting
  import opened Ranking
  import opened Corpus
  import opened SparseVectors
  import opened SparseSearch
  import opened SparsePostings
  import opened SparseIndex
  import opened SparseQuery
  import opened SparseService

  // ---------- vectors ----------

  // The norm of a vector is its inner product with itself.
  lemma {:induction false} SquareSumIsInner(ar: Arith, v: SparseValues, n: nat)
    requires Ordered(v) && n <= |v.indices|
    ensures SquareSum(ar, v.weights[..n]) == Partial(ar, v, v, n)
  {
    if n > 0 {
      SquareSumIsInner(ar, v, n - 1);
      assert v.weights[..n][..n - 1] == v.weights[..n - 1];
      WeightIsUnique(v, n - 1);
    }
  }

  // Sorted vectors: ascending from one index to the next.
  lemma {:induction false} OrderedSays(v: SparseValues)
    ensures Ordered(v) <==>
              |v.indices| == |v.weights|
              && (forall i :: 0 <= i < |v.indices| ==> 0 <= v.indices[i] && v.weights[i] > 0.0)
              && (forall i :: 0 < i < |v.indices| ==> v.indices[i - 1] < v.indices[i])
  {
    if forall i :: 0 < i < |v.indices| ==> v.indices[i - 1] < v.indices[i] {
      forall i, j | 0 <= i < j < |v.indices| ensures v.indices[i] < v.indices[j] {
        NeighboursOrder(v.indices, i, j);
      }
    }
  }

  // A valid vector is sorted, names between one and the allowed number of tokens in range, and
  // has an inner product with itself that is not zero, or even near one.
  lemma {:induction false} ValidVectorSays(v: SparseValues, c: Contract)
    ensures ValidVector(v, c) <==>
              Ordered(v) && 1 <= |v.indices| <= c.maxNonzero
              && (forall i :: 0 <= i < |v.indices| ==> v.indices[i] < c.dimensions)
              && Inner(c.ar, v, v) != 0.0 && (c.unit ==> 0.9999 <= Inner(c.ar, v, v) <= 1.0001)
  {
    hide Partial;
    if Ordered(v) {
      SquareSumIsInner(c.ar, v, |v.indices|);
      assert v.weights[..|v.indices|] == v.weights;
    }
  }

  lemma {:induction false} NeighboursOrder(s: seq<int>, i: nat, j: nat)
    requires i < j < |s| && forall k :: 0 < k < |s| ==> s[k - 1] < s[k]
    ensures s[i] < s[j]
    decreases j
  {
    if i < j - 1 {
      NeighboursOrder(s, i, j - 1);
    }
  }

  // ---------- opened indexes ----------

  // An index that opens belongs to this lane and to its manifest.
  lemma {:induction false} OpenedMatchesManifest(objects: map<Ref, Object>, cfg: Config, idx: LaneIndex,
          m: ChunkManifest)
    requires Accepts(objects, cfg, idx, m)
    ensures idx.schemaVersion == 1 && idx.header.buildId != "" && idx.header.generation >= 1
    ensures idx.inputManifestHash == m.inputManifestHash && idx.header.profile == cfg.profile && |idx.shards| >= 1
  {
  }

  // Each of its shards was stored under the declared reference for this very build, by the same
  // model, with the declared chunks in the declared order, and every vector under its own hash.
  lemma {:induction false} OpenedShardMatches(objects: map<Ref, Object>, cfg: Config, idx: LaneIndex,
          m: ChunkManifest, i: nat)
    requires Accepts(objects, cfg, idx, m) && i < |idx.shards|
    ensures var d := idx.shards[i];
            d.artifact in objects && objects[d.artifact].ShardObject?
            && var part := objects[d.artifact].shard;
               part.schemaVersion == 1 && part.header == idx.header && part.binding == cfg.binding
               && part.moduleId == m.moduleId && part.releaseId == m.releaseId
               && 0 <= part.usage.promptTokens <= part.usage.totalTokens
               && |part.rows| == |d.chunkIds| >= 1
               && forall k :: 0 <= k < |part.rows| ==>
                    part.rows[k].chunk.id == d.chunkIds[k] && part.rows[k].chunk in m.chunks
                    && part.rows[k].vectorHash == cfg.vectorHash(part.rows[k].vector)
                    && ValidVector(part.rows[k].vector, cfg.contract)
  {
    hide ValidVector, ArePostings;
    var parts := Parts(objects, idx.shards);
    assert PartFits(cfg, idx, m, parts, idx.shards, i);
    forall k | 0 <= k < |parts[i].rows|
      ensures RowFits(cfg, m.chunks, parts[i].rows[k], idx.shards[i].chunkIds[k])
    {
    }
  }

  // The usage of the whole is that of its shards, and as sound.
  lemma {:induction false} UsageIsSound(parts: seq<Shard>)
    requires forall i :: 0 <= i < |parts| ==> SoundUsage(parts[i].usage)
    ensures 0 <= TotalUsage(parts).promptTokens <= TotalUsage(parts).totalTokens
    ensures forall i :: 0 <= i < |parts| ==>
              parts[i].usage.promptTokens <= TotalUsage(parts).promptTokens
              && parts[i].usage.totalTokens <= TotalUsage(parts).totalTokens
  {
    if parts != [] {
      UsageIsSound(parts[..|parts| - 1]);
      assert forall i :: 0 <= i < |parts| - 1 ==> parts[..|parts| - 1][i] == parts[i];
    }
  }

  lemma {:induction false} UsageAddsUp(a: seq<Shard>, b: seq<Shard>)
    ensures TotalUsage(a + b).promptTokens == TotalUsage(a).promptTokens + TotalUsage(b).promptTokens
    ensures TotalUsage(a + b).totalTokens == TotalUsage(a).totalTokens + TotalUsage(b).totalTokens
    decreases |b|
  {
    if b == [] {
      assert a + b == a;
    } else {
      assert (a + b)[..|a + b| - 1] == a + b[..|b| - 1];
      UsageAddsUp(a, b[..|b| - 1]);
    }
  }

  // What the store holds under a reference, as a manifest or as an index.
  lemma {:induction false} WhatIsStored(objects: map<Ref, Object>, ref: Ref, m: ChunkManifest, idx: LaneIndex)
    ensures ManifestAt(objects, ref) == Some(m) <==> ref in objects && objects[ref] == ManifestObject(m)
    ensures IndexAt(objects, ref) == Some(idx) <==> ref in objects && objects[ref] == IndexObject(idx)
  {
  }

  // A build is taken on if it is named, of this lane, and over a stored valid manifest.
  lemma {:induction false} WhatIsBuilt(cfg: Config, objects: map<Ref, Object>, q: BuildRequest)
    ensures Buildable(cfg, objects, q) <==>
              q.header.buildId != "" && q.header.generation >= 1 && q.header.profile == cfg.profile
              && exists m :: Valid(m) && q.header.chunkManifest in objects
                             && objects[q.header.chunkManifest] == ManifestObject(m)
  {
    var ref := q.header.chunkManifest;
    if ref in objects && objects[ref].ManifestObject? {
      assert Valid(objects[ref].manifest) ==> objects[ref] == ManifestObject(objects[ref].manifest);
    }
  }

  // What a fresh build stored: the request's own header, over the manifest it named, with one
  // row for each chunk in the manifest's order.
  lemma {:induction false} FreshBuildSays(objects: map<Ref, Object>, cfg: Config, q: BuildRequest, m: ChunkManifest,
          rows: seq<Row>, r: BuildResult)
    requires BuiltFrom(objects, cfg, q, m, rows, r)
    ensures r.ref in objects && objects[r.ref] == IndexObject(r.index) && r.index.header == q.header
    ensures r.index.schemaVersion == 1 && r.index.inputManifestHash == m.inputManifestHash
    ensures r.encodedChunks == |m.chunks| && r.reusedChunks == 0 && !r.reused && r.usage == r.storedUsage
    ensures 0 <= r.usage.promptTokens <= r.usage.totalTokens
  {
    var parts := Parts(objects, r.index.shards);
    forall i | 0 <= i < |parts| ensures SoundUsage(parts[i].usage) {
      OpenedShardMatches(objects, cfg, r.index, m, i);
    }
    UsageIsSound(parts);
  }

  // ---------- answers ----------

  lemma {:induction false} RowsHaveVectors(s: Snapshot, parts: seq<Shard>, id: Text)
    requires Holds(s, parts) && id in s.rows
    ensures var vectors := VectorsOf(AllRows(parts));
            id in vectors && vectors[id] == s.rows[id].vector && Ordered(s.rows[id].vector) && s.rows[id].chunk.id == id
  {
    RowsAndVectorsAgree(AllRows(parts));
  }

  // Every answer is the chunk of a listed revision with its own positive inner product, ranked
  // from 1 by score and then ID.
  lemma {:induction false} AnswersAreListed(ar: Arith, s: Snapshot, parts: seq<Shard>, q: Query, v: SparseValues,
          cs: seq<Candidate>, i: nat)
    requires Holds(s, parts) && Ordered(v) && q.topK >= 0 && IsExactAnswer(ar, s, parts, q, v, cs) && i < |cs|
    ensures var c := cs[i];
            |cs| <= q.topK && c.rank == i + 1 && c.query == q && c.chunk.id in s.rows
            && c.chunk == s.rows[c.chunk.id].chunk && c.chunk.revisionId in q.revisions
            && Ordered(s.rows[c.chunk.id].vector)
            && c.score == c.backendScore == Inner(ar, v, s.rows[c.chunk.id].vector) && c.score > 0.0
    ensures forall j :: i < j < |cs| ==>
              cs[j].score < cs[i].score || (cs[j].score == cs[i].score && Less(cs[i].chunk.id, cs[j].chunk.id))
  {
    var vectors, allowed := VectorsOf(AllRows(parts)), Allowed(s, q.revisions);
    TopIsRanked(HitsOf(cs), PositiveHits(ar, v, vectors, allowed), q.topK);
    assert HitsOf(cs)[i] in HitsOf(cs);
    RowsHaveVectors(s, parts, cs[i].chunk.id);
    forall j | i < j < |cs|
      ensures cs[j].score < cs[i].score || (cs[j].score == cs[i].score && Less(cs[i].chunk.id, cs[j].chunk.id))
    {
      assert Better(HitsOf(cs)[i], HitsOf(cs)[j]);
    }
  }

  lemma {:induction false} HitOrBeaten(cs: seq<Candidate>, all: set<Hit>, k: nat, h: Hit)
    requires IsTop(HitsOf(cs), all, k) && h in all
    ensures (exists i :: 0 <= i < |cs| && cs[i].chunk.id == h.id)
            || (|cs| == k && forall i :: 0 <= i < |cs| ==>
                  cs[i].score > h.score || (cs[i].score == h.score && Less(cs[i].chunk.id, h.id)))
  {
    if h in HitsOf(cs) {
      var i :| 0 <= i < |cs| && HitsOf(cs)[i] == h;
      assert cs[i].chunk.id == h.id;
    } else {
      TopBeatsTheRest(HitsOf(cs), all, k, h);
      forall i | 0 <= i < |cs|
        ensures cs[i].score > h.score || (cs[i].score == h.score && Less(cs[i].chunk.id, h.id))
      {
        assert Better(HitsOf(cs)[i], h);
      }
    }
  }

  // Every chunk of a listed revision with a positive inner product is answered, unless there
  // are topK better ones.
  lemma {:induction false} NothingIsLeftOut(ar: Arith, s: Snapshot, parts: seq<Shard>, q: Query, v: SparseValues,
          cs: seq<Candidate>, id: Text)
    requires Holds(s, parts) && Ordered(v) && q.topK >= 0 && IsExactAnswer(ar, s, parts, q, v, cs)
    requires id in s.rows && s.rows[id].chunk.revisionId in q.revisions && Ordered(s.rows[id].vector)
    requires Inner(ar, v, s.rows[id].vector) > 0.0
    ensures (exists i :: 0 <= i < |cs| && cs[i].chunk == s.rows[id].chunk)
            || (|cs| == q.topK
                && forall i :: 0 <= i < |cs| ==>
                     var x := Inner(ar, v, s.rows[id].vector);
                     cs[i].score > x || (cs[i].score == x && Less(cs[i].chunk.id, id)))
  {
    var vectors, allowed := VectorsOf(AllRows(parts)), Allowed(s, q.revisions);
    RowsHaveVectors(s, parts, id);
    var h := Hit(id, Inner(ar, v, s.rows[id].vector));
    assert h in PositiveHits(ar, v, vectors, allowed);
    HitOrBeaten(cs, PositiveHits(ar, v, vectors, allowed), q.topK, h);
  }
}
