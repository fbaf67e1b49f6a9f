// Building, resuming and querying the sparse lane.
module SparseService {
  import opened Basics
  import opened Bytes
  import opened Sorting
  import opened Ranking
  import opened Corpus
  import opened SparseVectors
  import opened SparseSearch
  import opened SparsePostings
  import opened SparseIndex

  // A validated response of the encoder for one batch.
  datatype Encoded = Encoded(vectors: map<Text, SparseValues>, usage: Usage)

  type Encoder = nat -> Option<Encoded>

  datatype BuildRequest = BuildRequest(header: Header, resume: Option<Ref>)

  datatype BuildResult = BuildResult(
    index: LaneIndex, ref: Ref, usage: Usage, storedUsage: Usage, encodedChunks: nat, reusedChunks: nat, reused: bool)

  predicate EncodedFits(cfg: Config, group: seq<Chunk>, e: Encoded) {
    SoundUsage(e.usage)
    && forall i :: 0 <= i < |group| ==> group[i].id in e.vectors && ValidVector(e.vectors[group[i].id], cfg.contract)
  }

  function IdsOf(chunks: seq<Chunk>): seq<Text> {
    seq(|chunks|, i requires 0 <= i < |chunks| => chunks[i].id)
  }

  // ---------- what a build is to produce ----------

  // Each chunk of a batch with the vector the encoder gave it.
  ghost function EncodedRows(cfg: Config, group: seq<Chunk>, e: Encoded): seq<Row>
    requires EncodedFits(cfg, group, e)
  {
    seq(|group|, i requires 0 <= i < |group| =>
      var v := e.vectors[group[i].id]; Row(group[i], v, cfg.vectorHash(v)))
  }

  function BatchEnd(cfg: Config, chunks: seq<Chunk>, start: nat): nat
    requires cfg.batchSize >= 1 && start <= |chunks|
  {
    Min(start + cfg.batchSize, |chunks|)
  }

  // The encoder answers every batch from chunk `start` on with sound vectors.
  ghost predicate Encodable(cfg: Config, encode: Encoder, chunks: seq<Chunk>, start: nat, call: nat)
    requires cfg.batchSize >= 1 && start <= |chunks|
    decreases |chunks| - start
  {
    start == |chunks|
    || (var end := BatchEnd(cfg, chunks, start);
        encode(call).Some? && EncodedFits(cfg, chunks[start..end], encode(call).value)
        && Encodable(cfg, encode, chunks, end, call + 1))
  }

  // One row for each chunk from `start` on, in manifest order.
  ghost function RowsToBuild(cfg: Config, encode: Encoder, chunks: seq<Chunk>, start: nat, call: nat): seq<Row>
    requires cfg.batchSize >= 1 && start <= |chunks| && Encodable(cfg, encode, chunks, start, call)
    decreases |chunks| - start
  {
    if start == |chunks| then []
    else
      var end := BatchEnd(cfg, chunks, start);
      EncodedRows(cfg, chunks[start..end], encode(call).value) + RowsToBuild(cfg, encode, chunks, end, call + 1)
  }

  // Row k of the build is chunk k of the manifest.
  lemma {:induction false} BuiltRowsFollowTheManifest(cfg: Config, encode: Encoder, chunks: seq<Chunk>, start: nat,
          call: nat)
    requires cfg.batchSize >= 1 && start <= |chunks| && Encodable(cfg, encode, chunks, start, call)
    ensures HoldsChunks(RowsToBuild(cfg, encode, chunks, start, call), chunks[start..])
    decreases |chunks| - start
  {
    if start < |chunks| {
      BuiltRowsFollowTheManifest(cfg, encode, chunks, BatchEnd(cfg, chunks, start), call + 1);
    }
  }

  // The rows hold these chunks, in this order.
  ghost predicate HoldsChunks(rows: seq<Row>, chunks: seq<Chunk>) {
    |rows| == |chunks| && forall i :: 0 <= i < |rows| ==> rows[i].chunk == chunks[i]
  }

  // ---------- lemmas about adding one shard ----------

  lemma {:induction false} PartRowsAreRows(parts: seq<Shard>, k: nat, r: Row)
    requires k < |parts| && r in parts[k].rows
    ensures r in AllRows(parts)
  {
    if k < |parts| - 1 {
      PartRowsAreRows(parts[..|parts| - 1], k, r);
    }
  }

  // A shard whose first chunk is in no earlier shard is a new object.
  lemma {:induction false} NewShardIsNew(parts: seq<Shard>, part: Shard, chunks: seq<Chunk>, n: nat, k: nat)
    requires DistinctChunks(chunks) && n < |chunks| && HoldsChunks(AllRows(parts), chunks[..n]) && k < |parts|
    requires part.rows != [] && part.rows[0].chunk == chunks[n]
    ensures parts[k] != part
  {
    if parts[k].rows != [] {
      var r := parts[k].rows[0];
      PartRowsAreRows(parts, k, r);
      var i :| 0 <= i < |AllRows(parts)| && AllRows(parts)[i] == r;
      assert r.chunk == chunks[i] && chunks[i].id != chunks[n].id;
    }
  }

  lemma {:induction false} ChunksDistinctRows(rows: seq<Row>, chunks: seq<Chunk>, n: nat)
    requires DistinctChunks(chunks) && n <= |chunks| && HoldsChunks(rows, chunks[..n])
    ensures DistinctIds(rows)
  {
    forall i, j | 0 <= i < j < |rows| ensures rows[i].chunk.id != rows[j].chunk.id {
      assert rows[i].chunk == chunks[i] && rows[j].chunk == chunks[j];
    }
  }

  lemma {:induction false} HoldsMore(rows: seq<Row>, more: seq<Row>, chunks: seq<Chunk>, start: nat, end: nat)
    requires start <= end <= |chunks| && HoldsChunks(rows, chunks[..start]) && HoldsChunks(more, chunks[start..end])
    ensures HoldsChunks(rows + more, chunks[..end])
  {
    JoinedRows(rows, more);
    assert chunks[..end] == chunks[..start] + chunks[start..end];
  }

  lemma {:induction false} SameHeaderFits(cfg: Config, idx: LaneIndex, next: LaneIndex, m: ChunkManifest,
          parts: seq<Shard>, shards: seq<IndexShard>)
    requires idx.header == next.header && PartsFit(cfg, idx, m, parts, shards)
    ensures PartsFit(cfg, next, m, parts, shards)
  {
    forall i | 0 <= i < |parts| ensures PartFits(cfg, next, m, parts, shards, i) {
      assert PartFits(cfg, idx, m, parts, shards, i);
    }
  }

  // The shards built from the first n chunks.
  ghost predicate BuiltFront(objects: map<Ref, Object>, cfg: Config, m: ChunkManifest, idx: LaneIndex, n: nat,
          usage: Usage)
  {
    n <= |m.chunks| && StoredShards(objects, idx.shards)
    && FrontOf(cfg, m, idx, n, usage, Parts(objects, idx.shards))
  }

  ghost predicate FrontOf(cfg: Config, m: ChunkManifest, idx: LaneIndex, n: nat, usage: Usage, parts: seq<Shard>)
    requires n <= |m.chunks|
  {
    PartsFit(cfg, idx, m, parts, idx.shards) && HoldsChunks(AllRows(parts), m.chunks[..n]) && usage == TotalUsage(parts)
  }

  // Objects are only ever added.
  ghost predicate Extends(a: map<Ref, Object>, b: map<Ref, Object>) {
    forall r :: r in a ==> r in b && b[r] == a[r]
  }

  // Between two moments of a store.
  ghost predicate Grown(a: map<Ref, Object>, clashedThen: bool, b: map<Ref, Object>, clashedNow: bool) {
    Extends(a, b) && (clashedThen ==> clashedNow)
  }

  lemma {:induction false} PartsOfMore(objects: map<Ref, Object>, more: map<Ref, Object>, shards: seq<IndexShard>)
    requires StoredShards(objects, shards) && Extends(objects, more)
    ensures StoredShards(more, shards) && Parts(more, shards) == Parts(objects, shards)
  {
  }

  lemma {:induction false} FrontOfMore(cfg: Config, m: ChunkManifest, idx: LaneIndex, start: nat, end: nat,
          usage: Usage, parts: seq<Shard>, part: Shard, shard: IndexShard)
    requires start < end <= |m.chunks| && DistinctChunks(m.chunks) && FrontOf(cfg, m, idx, start, usage, parts)
    requires ShardFits(cfg, idx, m, part, shard.chunkIds) && HoldsChunks(part.rows, m.chunks[start..end])
    requires forall k :: 0 <= k < |idx.shards| ==> idx.shards[k].artifact != shard.artifact
    ensures FrontOf(cfg, m, idx.(shards := idx.shards + [shard]), end, AddUsage(usage, part.usage), parts + [part])
    ensures AllRows(parts + [part]) == AllRows(parts) + part.rows
  {
    var next := idx.(shards := idx.shards + [shard]);
    HoldsMore(AllRows(parts), part.rows, m.chunks, start, end);
    ChunksDistinctRows(AllRows(parts) + part.rows, m.chunks, end);
    FitsGrow(cfg, idx, m, parts, idx.shards, part, shard);
    SameHeaderFits(cfg, idx, next, m, parts + [part], next.shards);
    assert (parts + [part])[..|parts|] == parts;
  }

  lemma {:induction false} PartsPlusOne(objects: map<Ref, Object>, shards: seq<IndexShard>, part: Shard,
          shard: IndexShard)
    requires StoredShards(objects, shards) && forall k :: 0 <= k < |shards| ==> shards[k].artifact != shard.artifact
    ensures var more := objects[shard.artifact := ShardObject(part)];
            StoredShards(more, shards + [shard]) && Parts(more, shards + [shard]) == Parts(objects, shards) + [part]
  {
  }

  // Storing the next shard under its own hash extends what is built.
  lemma {:induction false} BuiltFrontGrows(objects: map<Ref, Object>, cfg: Config, m: ChunkManifest, idx: LaneIndex,
          start: nat, end: nat, usage: Usage, part: Shard, shard: IndexShard)
    requires DistinctChunks(m.chunks) && start < end <= |m.chunks| && BuiltFront(objects, cfg, m, idx, start, usage)
    requires ShardFits(cfg, idx, m, part, shard.chunkIds) && HoldsChunks(part.rows, m.chunks[start..end])
    requires shard.artifact in objects ==> objects[shard.artifact] == ShardObject(part)
    ensures var more, next := objects[shard.artifact := ShardObject(part)], idx.(shards := idx.shards + [shard]);
            BuiltFront(more, cfg, m, next, end, AddUsage(usage, part.usage))
            && AllRows(Parts(more, next.shards)) == AllRows(Parts(objects, idx.shards)) + part.rows
  {
    var parts := Parts(objects, idx.shards);
    forall k | 0 <= k < |idx.shards| ensures idx.shards[k].artifact != shard.artifact {
      NewShardIsNew(parts, part, m.chunks, start, k);
      assert objects[idx.shards[k].artifact] == ShardObject(parts[k]);
    }
    FrontOfMore(cfg, m, idx, start, end, usage, parts, part, shard);
    PartsPlusOne(objects, idx.shards, part, shard);
  }

  // ---------- the service ----------

  // A request the service takes on: a named build of this lane over a stored, valid manifest.
  predicate Buildable(cfg: Config, objects: map<Ref, Object>, q: BuildRequest) {
    q.header.buildId != "" && q.header.generation >= 1 && q.header.profile == cfg.profile
    && ManifestAt(objects, q.header.chunkManifest).Some? && Valid(ManifestAt(objects, q.header.chunkManifest).value)
  }

  function ManifestAt(objects: map<Ref, Object>, ref: Ref): Option<ChunkManifest> {
    if ref in objects && objects[ref].ManifestObject? then Some(objects[ref].manifest) else None
  }

  function IndexAt(objects: map<Ref, Object>, ref: Ref): Option<LaneIndex> {
    if ref in objects && objects[ref].IndexObject? then Some(objects[ref].index) else None
  }

  function EmptyIndex(q: BuildRequest, m: ChunkManifest): LaneIndex {
    LaneIndex(1, q.header, m.inputManifestHash, [])
  }

  // A stored index that opens.
  ghost predicate Opens(objects: map<Ref, Object>, cfg: Config, ref: Ref) {
    IndexAt(objects, ref).Some? && ManifestAt(objects, IndexAt(objects, ref).value.header.chunkManifest).Some?
    && Accepts(objects, cfg, IndexAt(objects, ref).value,
               ManifestAt(objects, IndexAt(objects, ref).value.header.chunkManifest).value)
  }

  // Everything a fresh build guarantees about the index it stored.
  ghost predicate BuiltFrom(objects: map<Ref, Object>, cfg: Config, q: BuildRequest, m: ChunkManifest, rows: seq<Row>,
          r: BuildResult)
  {
    Accepts(objects, cfg, r.index, m) && Opens(objects, cfg, r.ref)
    && IndexAt(objects, r.ref) == Some(r.index) && r.index.(shards := []) == EmptyIndex(q, m)
    && AllRows(Parts(objects, r.index.shards)) == rows
    && r.usage == r.storedUsage == TotalUsage(Parts(objects, r.index.shards))
    && r.encodedChunks == |m.chunks| && r.reusedChunks == 0 && !r.reused
  }

  // What resuming a stored index reports: nothing encoded, everything reused.
  ghost predicate ResumedFrom(objects: map<Ref, Object>, cfg: Config, ref: Ref, r: BuildResult) {
    Opens(objects, cfg, ref)
    && (var idx := IndexAt(objects, ref).value;
        var parts := Parts(objects, idx.shards);
        r == BuildResult(idx, ref, Usage(0, 0), TotalUsage(parts), 0, |AllRows(parts)|, true))
  }

  // `rows` hold the chunks before `start`, and what is left to build completes them.
  ghost predicate Progress(cfg: Config, encode: Encoder, chunks: seq<Chunk>, rows: seq<Row>, start: nat, firstCall: nat,
          call: nat)
    requires cfg.batchSize >= 1
  {
    start <= |chunks|
    && (Encodable(cfg, encode, chunks, 0, firstCall) <==> Encodable(cfg, encode, chunks, start, call))
    && (Encodable(cfg, encode, chunks, start, call) ==>
          RowsToBuild(cfg, encode, chunks, 0, firstCall) == rows + RowsToBuild(cfg, encode, chunks, start, call))
  }

  // One batch: it stops the build if the encoder's answer does not fit, and else completes
  // the chunks up to its end.
  lemma {:induction false} ProgressStep(cfg: Config, encode: Encoder, chunks: seq<Chunk>, rows: seq<Row>, start: nat,
          firstCall: nat, call: nat)
    requires cfg.batchSize >= 1 && start < |chunks| && Progress(cfg, encode, chunks, rows, start, firstCall, call)
    ensures var end, e := BatchEnd(cfg, chunks, start), encode(call);
            if e.Some? && EncodedFits(cfg, chunks[start..end], e.value) then
              Progress(cfg, encode, chunks, rows + EncodedRows(cfg, chunks[start..end], e.value), end, firstCall,
                       call + 1)
            else !Encodable(cfg, encode, chunks, 0, firstCall)
  {
    var end, e := BatchEnd(cfg, chunks, start), encode(call);
    if e.Some? && EncodedFits(cfg, chunks[start..end], e.value) && Encodable(cfg, encode, chunks, end, call + 1) {
      var more, rest := EncodedRows(cfg, chunks[start..end], e.value), RowsToBuild(cfg, encode, chunks, end, call + 1);
      assert rows + (more + rest) == (rows + more) + rest;
    }
  }

  // A completed build, once its index is stored, is an index that opens.
  lemma {:induction false} FinishedFits(objects: map<Ref, Object>, cfg: Config, q: BuildRequest, m: ChunkManifest,
          idx: LaneIndex, ref: Ref, usage: Usage)
    requires Buildable(cfg, objects, q) && ManifestAt(objects, q.header.chunkManifest) == Some(m)
    requires BuiltFront(objects, cfg, m, idx, |m.chunks|, usage) && idx.shards != []
             && idx.(shards := []) == EmptyIndex(q, m)
    requires IndexAt(objects, ref) == Some(idx)
    ensures Accepts(objects, cfg, idx, m) && Opens(objects, cfg, ref)
  {
    assert m.chunks[..|m.chunks|] == m.chunks;
    assert idx.header == EmptyIndex(q, m).header && idx.schemaVersion == 1
           && idx.inputManifestHash == m.inputManifestHash;
  }

  class Service {
    const store: ObjectStore
    const cfg: Config
    const encode: Encoder    // what the encoder answers, call by call
    var calls: nat

    constructor (store: ObjectStore, cfg: Config, encode: Encoder)
      requires cfg.batchSize >= 1
      ensures this.store == store && this.cfg == cfg && this.encode == encode && calls == 0
    {
      this.store, this.cfg, this.encode, this.calls := store, cfg, encode, 0;
    }

    // One batch of chunks as a shard.
    method MakeShard(idx: LaneIndex, m: ChunkManifest, group: seq<Chunk>, e: Encoded) returns (part: Shard)
      requires group != [] && EncodedFits(cfg, group, e) && DistinctChunks(group)
      requires forall i :: 0 <= i < |group| ==> group[i] in m.chunks
      ensures ShardFits(cfg, idx, m, part, IdsOf(group))
      ensures part.rows == EncodedRows(cfg, group, e) && part.usage == e.usage
    {
      var rows: seq<Row> := [];
      for i := 0 to |group|
        invariant rows == EncodedRows(cfg, group, e)[..i]
      {
        var v := e.vectors[group[i].id];
        rows := rows + [Row(group[i], v, cfg.vectorHash(v))];
      }
      var postings := Postings(rows);
      part := Shard(1, idx.header, m.moduleId, m.releaseId, cfg.binding, e.usage, rows, postings);
      forall i | 0 <= i < |rows| ensures RowFits(cfg, m.chunks, rows[i], IdsOf(group)[i]) {
        assert group[i] in m.chunks;
      }
    }

    // Encodes and stores the batch that starts at chunk `start`.
    method BuildBatch(m: ChunkManifest, idx: LaneIndex, start: nat, end: nat, usage: Usage)
      returns (ok: bool, next: LaneIndex, total: Usage)
      requires store.Valid() && Valid(m) && start < end <= |m.chunks|
      requires !store.clashed ==> BuiltFront(store.objects, cfg, m, idx, start, usage)
      modifies store, this`calls
      ensures store.Valid() && Grown(old(store.objects), old(store.clashed), store.objects, store.clashed)
              && calls == old(calls) + 1
      ensures ok <==> encode(old(calls)).Some? && EncodedFits(cfg, m.chunks[start..end], encode(old(calls)).value)
      ensures ok ==> next.(shards := []) == idx.(shards := []) && next.shards != []
      ensures ok && !store.clashed ==>
                BuiltFront(store.objects, cfg, m, next, end, total)
                && AllRows(Parts(store.objects, next.shards))
                   == old(AllRows(Parts(store.objects, idx.shards)))
                       + EncodedRows(cfg, m.chunks[start..end], encode(old(calls)).value)
    {
      ok, next, total := false, idx, usage;
      var group := m.chunks[start..end];
      var e := encode(calls);
      calls := calls + 1;
      if e.None? || !EncodedFits(cfg, group, e.value) {
        return;
      }
      var part := MakeShard(idx, m, group, e.value);
      ghost var before := store.objects;
      var ref := store.Put(ShardObject(part));
      var shard := IndexShard(ref, IdsOf(group));
      if !store.clashed {
        BuiltFrontGrows(before, cfg, m, idx, start, end, usage, part, shard);
        assert store.objects == before[ref := ShardObject(part)];
      }
      ok, next, total := true, idx.(shards := idx.shards + [shard]), AddUsage(usage, part.usage);
    }

    // Opens a stored index against its stored manifest.
    method OpenRef(ref: Ref) returns (r: Option<Snapshot>)
      ensures r.Some? <==> Opens(store.objects, cfg, ref)
      ensures r.Some? ==> Some(r.value.index) == IndexAt(store.objects, ref) && r.value.ref == ref
                          && Some(r.value.manifest) == ManifestAt(store.objects, r.value.index.header.chunkManifest)
                          && Holds(r.value, Parts(store.objects, r.value.index.shards))
    {
      var idx := IndexAt(store.objects, ref);
      if idx.None? {
        return None;
      }
      var m := ManifestAt(store.objects, idx.value.header.chunkManifest);
      if m.None? {
        return None;
      }
      r := Open(store.objects, cfg, ref, idx.value, m.value);
    }

    // Resuming reuses a stored index whole, if it is the one this request would build.
    method Resume(q: BuildRequest, m: ChunkManifest, ref: Ref) returns (r: Option<BuildResult>)
      ensures r.Some? <==> Opens(store.objects, cfg, ref)
                           && IndexAt(store.objects, ref).value.(shards := []) == EmptyIndex(q, m)
      ensures r.Some? ==> ResumedFrom(store.objects, cfg, ref, r.value)
    {
      var snap := OpenRef(ref);
      if snap.None? || snap.value.index.(shards := []) != EmptyIndex(q, m) {
        return None;
      }
      ByIdSize(AllRows(Parts(store.objects, snap.value.index.shards)));
      return Some(BuildResult(snap.value.index, ref, Usage(0, 0), snap.value.usage, 0, |snap.value.rows|, true));
    }

    // Where the loop over the batches is: `rows` are built, and the rest completes them.
    ghost predicate Building(q: BuildRequest, m: ChunkManifest, idx: LaneIndex, start: nat, usage: Usage,
            rows: seq<Row>, firstCall: nat)
      requires cfg.batchSize >= 1
      reads this, store
    {
      store.Valid() && Valid(m) && start <= |m.chunks|
      && (!store.clashed ==>
           BuiltFront(store.objects, cfg, m, idx, start, usage) && rows == AllRows(Parts(store.objects, idx.shards)))
      && Progress(cfg, encode, m.chunks, rows, start, firstCall, calls)
      && idx.(shards := []) == EmptyIndex(q, m) && (start > 0 ==> idx.shards != [])
    }

    // The next batch: built, or the encoder's answer stops the build.
    method BuildNext(q: BuildRequest, m: ChunkManifest, idx: LaneIndex, start: nat, usage: Usage, ghost rows: seq<Row>,
            ghost firstCall: nat)
      returns (ok: bool, next: LaneIndex, total: Usage, ghost all: seq<Row>)
      requires cfg.batchSize >= 1 && start < |m.chunks| && Building(q, m, idx, start, usage, rows, firstCall)
      modifies store, this`calls
      ensures store.Valid() && Grown(old(store.objects), old(store.clashed), store.objects, store.clashed)
      ensures ok ==> Building(q, m, next, BatchEnd(cfg, m.chunks, start), total, all, firstCall)
      ensures !ok ==> !Encodable(cfg, encode, m.chunks, 0, firstCall)
    {
      var end := BatchEnd(cfg, m.chunks, start);
      ProgressStep(cfg, encode, m.chunks, rows, start, firstCall, calls);
      all := rows;
      ok, next, total := BuildBatch(m, idx, start, end, usage);
      if ok {
        all := rows + EncodedRows(cfg, m.chunks[start..end], encode(calls - 1).value);
      }
    }

    // Every batch, encoded and stored in order.
    method BuildShards(q: BuildRequest, m: ChunkManifest) returns (ok: bool, idx: LaneIndex, usage: Usage)
      requires store.Valid() && Valid(m) && cfg.batchSize >= 1
      modifies store, this`calls
      ensures store.Valid() && Grown(old(store.objects), old(store.clashed), store.objects, store.clashed)
      ensures ok <==> Encodable(cfg, encode, m.chunks, 0, old(calls))
      ensures ok ==> idx.(shards := []) == EmptyIndex(q, m) && idx.shards != []
      ensures ok && !store.clashed ==>
                BuiltFront(store.objects, cfg, m, idx, |m.chunks|, usage)
                && AllRows(Parts(store.objects, idx.shards)) == RowsToBuild(cfg, encode, m.chunks, 0, old(calls))
    {
      idx, usage := EmptyIndex(q, m), Usage(0, 0);
      var start := 0;
      ghost var rows: seq<Row> := [];
      while start < |m.chunks|
        invariant Grown(old(store.objects), old(store.clashed), store.objects, store.clashed)
        invariant Building(q, m, idx, start, usage, rows, old(calls))
        decreases |m.chunks| - start
      {
        ok, idx, usage, rows := BuildNext(q, m, idx, start, usage, rows, old(calls));
        if !ok {
          return;
        }
        start := BatchEnd(cfg, m.chunks, start);
      }
      ok := true;
    }

    // A fresh build: the shards, then the index, then opened. Without a clash in the store it
    // succeeds exactly if every batch is encoded.
    method BuildFresh(q: BuildRequest, m: ChunkManifest) returns (r: Option<BuildResult>)
      requires store.Valid() && Buildable(cfg, store.objects, q)
               && Some(m) == ManifestAt(store.objects, q.header.chunkManifest)
      requires cfg.batchSize >= 1
      modifies store, this`calls
      ensures store.Valid() && Grown(old(store.objects), old(store.clashed), store.objects, store.clashed)
      ensures r.Some? ==> Encodable(cfg, encode, m.chunks, 0, old(calls)) && Opens(store.objects, cfg, r.value.ref)
      ensures !store.clashed ==>
                (r.Some? <==> Encodable(cfg, encode, m.chunks, 0, old(calls)))
                && (r.Some? ==>
                     BuiltFrom(store.objects, cfg, q, m, RowsToBuild(cfg, encode, m.chunks, 0, old(calls)), r.value))
    {
      var ok, idx, usage := BuildShards(q, m);
      if !ok {
        return None;
      }
      ghost var before := store.objects;
      var ref := store.Put(IndexObject(idx));
      if !store.clashed {
        PartsOfMore(before, store.objects, idx.shards);
        FinishedFits(store.objects, cfg, q, m, idx, ref, usage);
      }
      var snap := OpenRef(ref);
      if snap.None? {
        return None;
      }
      return Some(BuildResult(idx, ref, usage, usage, |m.chunks|, 0, false));
    }

    method Build(q: BuildRequest) returns (r: Option<BuildResult>)
      requires store.Valid() && cfg.batchSize >= 1
      modifies store, this`calls
      ensures store.Valid() && Grown(old(store.objects), old(store.clashed), store.objects, store.clashed)
      ensures !Buildable(cfg, old(store.objects), q) ==> r.None?
      ensures !Buildable(cfg, old(store.objects), q) || q.resume.Some? ==>
                store.objects == old(store.objects) && calls == old(calls)
      ensures Buildable(cfg, old(store.objects), q) && q.resume.Some? ==>
                var m, ref := ManifestAt(old(store.objects), q.header.chunkManifest).value, q.resume.value;
                (r.Some? <==>
                   Opens(store.objects, cfg, ref)
                   && IndexAt(store.objects, ref).value.(shards := []) == EmptyIndex(q, m))
                && (r.Some? ==> ResumedFrom(store.objects, cfg, ref, r.value))
      ensures Buildable(cfg, old(store.objects), q) && q.resume.None? && r.Some? ==>
                var m := ManifestAt(old(store.objects), q.header.chunkManifest).value;
                Encodable(cfg, encode, m.chunks, 0, old(calls)) && Opens(store.objects, cfg, r.value.ref)
      ensures Buildable(cfg, old(store.objects), q) && q.resume.None? && !store.clashed ==>
                var m := ManifestAt(old(store.objects), q.header.chunkManifest).value;
                (r.Some? <==> Encodable(cfg, encode, m.chunks, 0, old(calls)))
                && (r.Some? ==>
                     BuiltFrom(store.objects, cfg, q, m, RowsToBuild(cfg, encode, m.chunks, 0, old(calls)), r.value))
    {
      if q.header.buildId == "" || q.header.generation < 1 || q.header.profile != cfg.profile {
        return None;
      }
      var m := ManifestAt(store.objects, q.header.chunkManifest);
      if m.None? {
        return None;
      }
      var ok := ValidateManifest(m.value);
      if !ok {
        return None;
      }
      if q.resume.Some? {
        r := Resume(q, m.value, q.resume.value);
      } else {
        r := BuildFresh(q, m.value);
      }
    }
  }

  // A later build that resumes from a fresh one, with whatever was stored in between,
  // returns the same index, encodes nothing, and reports the usage of the original.
  lemma {:induction false} ResumeAfterBuild(objects: map<Ref, Object>, later: map<Ref, Object>, cfg: Config,
          q: BuildRequest, m: ChunkManifest, rows: seq<Row>, built: BuildResult, resumed: BuildResult)
    requires BuiltFrom(objects, cfg, q, m, rows, built) && Extends(objects, later)
             && ResumedFrom(later, cfg, built.ref, resumed)
    ensures resumed.index == built.index && resumed.ref == built.ref
    ensures resumed.usage == Usage(0, 0) && resumed.storedUsage == built.usage
    ensures resumed.encodedChunks == 0 && resumed.reusedChunks == built.encodedChunks && resumed.reused
  {
    PartsOfMore(objects, later, built.index.shards);
  }

  // That later build does succeed.
  lemma {:induction false} ResumeSucceeds(objects: map<Ref, Object>, later: map<Ref, Object>, cfg: Config,
          q: BuildRequest, m: ChunkManifest, rows: seq<Row>, built: BuildResult)
    requires BuiltFrom(objects, cfg, q, m, rows, built) && Extends(objects, later)
    requires ManifestAt(objects, q.header.chunkManifest) == Some(m)
    ensures Opens(later, cfg, built.ref) && IndexAt(later, built.ref).value.(shards := []) == EmptyIndex(q, m)
  {
    PartsOfMore(objects, later, built.index.shards);
    assert later[built.ref] == objects[built.ref];
    assert built.index.header == q.header;
  }
}
