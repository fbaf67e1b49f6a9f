// The persistent sparse index: shards of rows and posting lists under content hashes,
// opened only if they are exactly what their manifest calls for.
module SparseIndex {
  import opened Basics
  import opened Bytes
  import opened Sorting
  import opened Corpus
  import opened SparseVectors
  import opened SparseSearch
  import opened SparsePostings

  datatype Shard = Shard(
    schemaVersion: int, header: Header, moduleId: string, releaseId: string, binding: string, usage: Usage,
    rows: seq<Row>, postings: seq<Posting>)

  datatype Object = ManifestObject(manifest: ChunkManifest) | IndexObject(index: LaneIndex) | ShardObject(shard: Shard)

  // `binding` fixes model, space and contract; `profile` the lane profile that matches it.
  datatype Config = Config(profile: string, binding: string, contract: Contract, batchSize: nat,
                           vectorHash: SparseValues -> string)

  datatype Snapshot = Snapshot(
    index: LaneIndex, ref: Ref, manifest: ChunkManifest, rows: map<Text, Row>, lists: PostingLists, usage: Usage)

  // ---------- what an acceptable index is ----------

  predicate RowFits(cfg: Config, chunks: seq<Chunk>, r: Row, id: Text) {
    r.chunk in chunks && r.chunk.id == id && r.vectorHash == cfg.vectorHash(r.vector)
    && ValidVector(r.vector, cfg.contract)
  }

  predicate RowsFit(cfg: Config, chunks: seq<Chunk>, rows: seq<Row>, ids: seq<Text>) {
    |rows| == |ids| && forall i :: 0 <= i < |rows| ==> RowFits(cfg, chunks, rows[i], ids[i])
  }

  predicate HeaderFits(cfg: Config, idx: LaneIndex, m: ChunkManifest, part: Shard) {
    part.schemaVersion == 1 && part.header == idx.header && part.moduleId == m.moduleId && part.releaseId == m.releaseId
    && part.binding == cfg.binding && SoundUsage(part.usage)
  }

  ghost predicate ShardFits(cfg: Config, idx: LaneIndex, m: ChunkManifest, part: Shard, ids: seq<Text>) {
    HeaderFits(cfg, idx, m, part) && ids != [] && RowsFit(cfg, m.chunks, part.rows, ids)
    && RowsOrdered(part.rows) && ArePostings(part.rows, part.postings)
  }

  predicate IndexFits(cfg: Config, idx: LaneIndex, m: ChunkManifest) {
    idx.schemaVersion == 1 && idx.header.buildId != "" && idx.header.generation >= 1
    && idx.inputManifestHash == m.inputManifestHash && idx.header.profile == cfg.profile && idx.shards != []
  }

  function AllRows(parts: seq<Shard>): seq<Row> {
    if parts == [] then [] else AllRows(parts[..|parts| - 1]) + parts[|parts| - 1].rows
  }

  function TotalUsage(parts: seq<Shard>): Usage {
    if parts == [] then Usage(0, 0) else AddUsage(TotalUsage(parts[..|parts| - 1]), parts[|parts| - 1].usage)
  }

  predicate StoredShards(objects: map<Ref, Object>, shards: seq<IndexShard>) {
    forall i :: 0 <= i < |shards| ==> shards[i].artifact in objects && objects[shards[i].artifact].ShardObject?
  }

  function Parts(objects: map<Ref, Object>, shards: seq<IndexShard>): seq<Shard>
    requires StoredShards(objects, shards)
  {
    seq(|shards|, i requires 0 <= i < |shards| && StoredShards(objects, shards) => objects[shards[i].artifact].shard)
  }

  ghost predicate PartsFit(cfg: Config, idx: LaneIndex, m: ChunkManifest, parts: seq<Shard>, shards: seq<IndexShard>) {
    |parts| == |shards| && DistinctArtifacts(shards) && DistinctIds(AllRows(parts))
    && forall i :: 0 <= i < |parts| ==> PartFits(cfg, idx, m, parts, shards, i)
  }

  ghost predicate PartFits(cfg: Config, idx: LaneIndex, m: ChunkManifest, parts: seq<Shard>, shards: seq<IndexShard>,
          i: nat)
    requires i < |parts| == |shards|
  {
    ShardFits(cfg, idx, m, parts[i], shards[i].chunkIds)
  }

  // The index is stored whole, every shard fits, no chunk is there twice and none is missing.
  ghost predicate Accepts(objects: map<Ref, Object>, cfg: Config, idx: LaneIndex, m: ChunkManifest) {
    Valid(m) && IndexFits(cfg, idx, m) && StoredShards(objects, idx.shards)
    && PartsFit(cfg, idx, m, Parts(objects, idx.shards), idx.shards)
    && |AllRows(Parts(objects, idx.shards))| == |m.chunks|
  }

  // The snapshot holds the rows of the parts by chunk ID, and lists that invert them.
  ghost predicate Holds(s: Snapshot, parts: seq<Shard>) {
    var rows := AllRows(parts);
    RowsOrdered(rows) && DistinctIds(rows) && s.rows == ById(rows)
    && AllOrdered(VectorsOf(rows)) && Inverts(s.lists, VectorsOf(rows))
    && s.usage == TotalUsage(parts)
  }

  // The rows by chunk ID.
  function ById(rows: seq<Row>): map<Text, Row> {
    if rows == [] then map[] else ById(rows[..|rows| - 1])[rows[|rows| - 1].chunk.id := rows[|rows| - 1]]
  }

  lemma {:induction false} ByIdHas(rows: seq<Row>, id: Text)
    ensures id in ById(rows) <==> HasId(rows, id)
  {
    if rows != [] {
      ByIdHas(rows[..|rows| - 1], id);
      HasIdSplits(rows, id);
    }
  }

  lemma {:induction false} ByIdSize(rows: seq<Row>)
    requires DistinctIds(rows)
    ensures |ById(rows)| == |rows|
  {
    if rows != [] {
      var rest, id := rows[..|rows| - 1], rows[|rows| - 1].chunk.id;
      ByIdSize(rest);
      ByIdHas(rest, id);
    }
  }

  // A row of fitting parts holds a chunk of the manifest.
  lemma {:induction false} RowIsAChunk(cfg: Config, idx: LaneIndex, m: ChunkManifest, parts: seq<Shard>,
          shards: seq<IndexShard>, i: nat)
    requires |parts| == |shards| && i < |AllRows(parts)|
    requires forall k :: 0 <= k < |parts| ==> PartFits(cfg, idx, m, parts, shards, k)
    ensures AllRows(parts)[i].chunk in m.chunks
  {
    hide ValidVector, ArePostings, RowsOrdered;
    var init, part, front := parts[..|parts| - 1], parts[|parts| - 1], shards[..|shards| - 1];
    if i < |AllRows(init)| {
      forall k | 0 <= k < |init| ensures PartFits(cfg, idx, m, init, front, k) {
        assert PartFits(cfg, idx, m, parts, shards, k);
      }
      RowIsAChunk(cfg, idx, m, init, front, i);
    } else {
      assert PartFits(cfg, idx, m, parts, shards, |parts| - 1);
      assert RowFits(cfg, m.chunks, part.rows[i - |AllRows(init)|], shards[|shards| - 1].chunkIds[i - |AllRows(init)|]);
    }
  }

  lemma {:induction false} ByIdAt(rows: seq<Row>, i: nat)
    requires DistinctIds(rows) && i < |rows|
    ensures rows[i].chunk.id in ById(rows) && ById(rows)[rows[i].chunk.id] == rows[i]
  {
    if i < |rows| - 1 {
      ByIdAt(rows[..|rows| - 1], i);
    }
  }

  // An acceptable index has exactly one row for each chunk of its manifest.
  lemma {:induction false} EveryChunkHasItsRow(objects: map<Ref, Object>, cfg: Config, idx: LaneIndex, m: ChunkManifest,
          c: Chunk)
    requires Accepts(objects, cfg, idx, m) && c in m.chunks
    ensures var rows := ById(AllRows(Parts(objects, idx.shards)));
            |rows| == |m.chunks| && c.id in rows && rows[c.id].chunk == c
  {
    hide PartFits;
    var parts := Parts(objects, idx.shards);
    var all := AllRows(parts);
    var ids := seq(|all|, i requires 0 <= i < |all| => all[i].chunk.id);
    forall i | 0 <= i < |all| ensures all[i].chunk in m.chunks {
      RowIsAChunk(cfg, idx, m, parts, idx.shards, i);
    }
    EveryChunkListed(m.chunks, ids, c);
    var k :| 0 <= k < |ids| && ids[k] == c.id;
    ByIdAt(all, k);
    ByIdSize(all);
    SameIdSameChunk(m.chunks, all[k].chunk, c);
  }

  // ---------- lemmas about growing a snapshot ----------

  // Where the rows of a concatenation are.
  lemma {:induction false} JoinedRows(a: seq<Row>, b: seq<Row>)
    ensures forall i :: 0 <= i < |a| ==> (a + b)[i] == a[i]
    ensures forall i :: 0 <= i < |b| ==> (a + b)[|a| + i] == b[i]
    ensures RowsOrdered(a + b) <==> RowsOrdered(a) && RowsOrdered(b)
  {
    assert forall i :: 0 <= i < |b| ==> (a + b)[|a| + i] == b[i];
  }

  function EntriesIn(ps: seq<Posting>, token: int): seq<Entry> {
    if ps == [] then []
    else EntriesIn(ps[..|ps| - 1], token) + (if ps[|ps| - 1].tokenId == token then ps[|ps| - 1].entries else [])
  }

  lemma {:induction false} EntriesInAt(ps: seq<Posting>, token: int)
    requires forall i, j :: 0 <= i < j < |ps| ==> ps[i].tokenId < ps[j].tokenId
    ensures !HasToken(ps, token) ==> EntriesIn(ps, token) == []
    ensures forall i :: 0 <= i < |ps| && ps[i].tokenId == token ==> EntriesIn(ps, token) == ps[i].entries
  {
    if ps != [] {
      var rest := ps[..|ps| - 1];
      EntriesInAt(rest, token);
      if HasToken(rest, token) {
        var i :| 0 <= i < |rest| && rest[i].tokenId == token;
        assert ps[i].tokenId == token;
      }
      if ps[|ps| - 1].tokenId == token {
        assert !HasToken(rest, token);
        assert HasToken(ps, token);
      }
    }
  }

  // The stored postings of a shard list each token as its rows do.
  lemma {:induction false} PostingsInvert(rows: seq<Row>, ps: seq<Posting>, token: int)
    requires RowsOrdered(rows) && DistinctIds(rows) && ArePostings(rows, ps)
    ensures AllOrdered(VectorsOf(rows)) && InvertsToken(EntriesIn(ps, token), token, VectorsOf(rows))
  {
    EntriesInvert(rows, token);
    EntriesInAt(ps, token);
    if HasToken(ps, token) {
      var i :| 0 <= i < |ps| && ps[i].tokenId == token;
      assert ps[i].entries == SortEntries(EntriesOf(rows, ps[i].tokenId));
    } else {
      assert EntriesOf(rows, token) == [];
    }
  }

  // A stored list still inverts the vectors when others, without its chunks, join them.
  lemma {:induction false} EntriesStay(a: seq<Entry>, va: Vectors, v: Vectors, token: int, i: nat)
    requires AllOrdered(va) && InvertsToken(a, token, va) && AllOrdered(v) && i < |a|
    requires forall id :: id in va ==> id in v && v[id] == va[id]
    ensures a[i].chunkId in va && WeightAt(v[a[i].chunkId], token) == Some(a[i].weight)
  {
  }

  lemma {:induction false} SeenInJoin(a: seq<Entry>, b: seq<Entry>, id: Text)
    requires id in Seen(a, |a|) || id in Seen(b, |b|)
    ensures id in Seen(a + b, |a + b|)
  {
    if id in Seen(a, |a|) {
      var i :| 0 <= i < |a| && a[i].chunkId == id;
      assert (a + b)[i].chunkId == id;
    } else {
      var i :| 0 <= i < |b| && b[i].chunkId == id;
      assert (a + b)[|a| + i].chunkId == id;
    }
  }

  // Lists for two disjoint sets of vectors, one after the other, are lists for both.
  lemma {:induction false} ListsJoin(a: seq<Entry>, va: Vectors, b: seq<Entry>, vb: Vectors, token: int)
    requires AllOrdered(va) && AllOrdered(vb) && va.Keys !! vb.Keys
    requires InvertsToken(a, token, va) && InvertsToken(b, token, vb)
    ensures AllOrdered(va + vb) && InvertsToken(a + b, token, va + vb)
  {
    hide WeightAt, Seen;
    var v, ab := va + vb, a + b;
    forall i | 0 <= i < |ab|
      ensures ab[i].chunkId in (if i < |a| then va else vb) && WeightAt(v[ab[i].chunkId], token) == Some(ab[i].weight)
    {
      if i < |a| {
        EntriesStay(a, va, v, token, i);
      } else {
        EntriesStay(b, vb, v, token, i - |a|);
      }
    }
    forall id | id in v && token in v[id].indices ensures id in Seen(ab, |ab|) {
      SeenInJoin(a, b, id);
    }
  }

  lemma {:induction false} VectorsJoin(a: seq<Row>, b: seq<Row>)
    ensures VectorsOf(a + b) == VectorsOf(a) + VectorsOf(b)
    decreases b
  {
    if b == [] {
      assert a + b == a;
    } else {
      assert (a + b)[..|a + b| - 1] == a + b[..|b| - 1];
      VectorsJoin(a, b[..|b| - 1]);
    }
  }

  lemma {:induction false} DistinctRowsSplit(a: seq<Row>, b: seq<Row>)
    requires DistinctIds(a + b)
    ensures DistinctIds(a) && DistinctIds(b) && VectorsOf(a).Keys !! VectorsOf(b).Keys
  {
    JoinedRows(a, b);
    VectorsSay(a);
    VectorsSay(b);
    forall i, j | 0 <= i < j < |a| ensures a[i].chunk.id != a[j].chunk.id {
      assert (a + b)[i].chunk.id != (a + b)[j].chunk.id;
    }
    forall i, j | 0 <= i < j < |b| ensures b[i].chunk.id != b[j].chunk.id {
      assert (a + b)[|a| + i].chunk.id != (a + b)[|a| + j].chunk.id;
    }
    forall i, j | 0 <= i < |a| && 0 <= j < |b| ensures a[i].chunk.id != b[j].chunk.id {
      assert (a + b)[i].chunk.id != (a + b)[|a| + j].chunk.id;
    }
  }

  // Appending a shard's stored lists keeps the lists right for all rows so far.
  lemma {:induction false} ListsGrow(rows: seq<Row>, lists: PostingLists, more: seq<Row>, ps: seq<Posting>, token: int)
    requires RowsOrdered(rows) && RowsOrdered(more) && DistinctIds(rows + more) && ArePostings(more, ps)
    requires AllOrdered(VectorsOf(rows)) && InvertsToken(ListOf(lists, token), token, VectorsOf(rows))
    ensures AllOrdered(VectorsOf(rows + more))
    ensures InvertsToken(ListOf(lists, token) + EntriesIn(ps, token), token, VectorsOf(rows + more))
  {
    DistinctRowsSplit(rows, more);
    PostingsInvert(more, ps, token);
    VectorsJoin(rows, more);
    ListsJoin(ListOf(lists, token), VectorsOf(rows), EntriesIn(ps, token), VectorsOf(more), token);
  }

  // ---------- opening ----------

  predicate CheckRow(cfg: Config, expected: map<Text, Chunk>, r: Row, id: Text) {
    r.chunk.id in expected && expected[r.chunk.id] == r.chunk && id == r.chunk.id
    && cfg.vectorHash(r.vector) == r.vectorHash
  }

  lemma {:induction false} RowFitsExpected(cfg: Config, chunks: seq<Chunk>, expected: map<Text, Chunk>, r: Row,
          id: Text)
    requires Expects(expected, chunks)
    ensures CheckRow(cfg, expected, r, id) && ValidVector(r.vector, cfg.contract) <==> RowFits(cfg, chunks, r, id)
  {
    assert r.chunk in chunks <==> r.chunk.id in expected && expected[r.chunk.id] == r.chunk;
  }

  // The rows of one shard against what the manifest expects and what is already loaded.
  method LoadRows(cfg: Config, ghost chunks: seq<Chunk>, expected: map<Text, Chunk>, loaded: map<Text, Row>,
          ghost before: seq<Row>, rows: seq<Row>, ids: seq<Text>)
    returns (ok: bool, all: map<Text, Row>)
    requires Expects(expected, chunks) && loaded == ById(before) && DistinctIds(before) && |rows| == |ids|
    ensures ok <==> RowsFit(cfg, chunks, rows, ids) && DistinctIds(before + rows)
    ensures ok ==> all == ById(before + rows)
  {
    all := loaded;
    assert before + rows[..0] == before;
    for i := 0 to |rows|
      invariant forall k :: 0 <= k < i ==> RowFits(cfg, chunks, rows[k], ids[k])
      invariant DistinctIds(before + rows[..i]) && all == ById(before + rows[..i])
    {
      RowFitsExpected(cfg, chunks, expected, rows[i], ids[i]);
      NextRow(before, rows, i);
      if !CheckRow(cfg, expected, rows[i], ids[i]) || rows[i].chunk.id in all {
        return false, all;
      }
      var valid := ValidateVector(rows[i].vector, cfg.contract);
      if !valid.Ok? {
        return false, all;
      }
      all := all[rows[i].chunk.id := rows[i]];
    }
    assert rows[..|rows|] == rows;
    ok := true;
  }

  // One more row keeps the IDs distinct exactly if its ID is new.
  lemma {:induction false} NextRow(before: seq<Row>, rows: seq<Row>, i: nat)
    requires i < |rows| && DistinctIds(before + rows[..i])
    ensures rows[i].chunk.id in ById(before + rows[..i]) ==> !DistinctIds(before + rows)
    ensures rows[i].chunk.id !in ById(before + rows[..i]) ==> DistinctIds(before + rows[..i + 1])
    ensures ById(before + rows[..i + 1]) == ById(before + rows[..i])[rows[i].chunk.id := rows[i]]
  {
    var known, r := before + rows[..i], rows[i];
    ByIdHas(known, r.chunk.id);
    assert before + rows[..i + 1] == known + [r];
    assert (known + [r])[..|known|] == known;
    if r.chunk.id in ById(known) {
      var k :| 0 <= k < |known| && known[k].chunk.id == r.chunk.id;
      assert (before + rows)[k] == known[k] && (before + rows)[|known|] == r;
    }
  }

  function Appended(lists: PostingLists, p: Posting): PostingLists {
    lists[p.tokenId := ListOf(lists, p.tokenId) + p.entries]
  }

  lemma {:induction false} AppendOneAt(before: PostingLists, lists: PostingLists, ps: seq<Posting>, i: nat, t: int)
    requires i < |ps| && ListOf(lists, t) == ListOf(before, t) + EntriesIn(ps[..i], t)
    ensures ListOf(Appended(lists, ps[i]), t) == ListOf(before, t) + EntriesIn(ps[..i + 1], t)
  {
    assert ps[..i + 1][..i] == ps[..i];
    if ps[i].tokenId == t {
      Associates(ListOf(before, t), EntriesIn(ps[..i], t), ps[i].entries);
    } else {
      assert EntriesIn(ps[..i + 1], t) == EntriesIn(ps[..i], t);
    }
  }

  lemma {:induction false} AppendOne(before: PostingLists, lists: PostingLists, ps: seq<Posting>, i: nat)
    requires i < |ps| && forall t :: ListOf(lists, t) == ListOf(before, t) + EntriesIn(ps[..i], t)
    ensures forall t :: ListOf(Appended(lists, ps[i]), t) == ListOf(before, t) + EntriesIn(ps[..i + 1], t)
  {
    forall t ensures ListOf(Appended(lists, ps[i]), t) == ListOf(before, t) + EntriesIn(ps[..i + 1], t) {
      AppendOneAt(before, lists, ps, i, t);
    }
  }

  // Appends the stored lists of one shard.
  method AppendLists(before: PostingLists, ps: seq<Posting>) returns (lists: PostingLists)
    ensures forall t :: ListOf(lists, t) == ListOf(before, t) + EntriesIn(ps, t)
  {
    lists := before;
    for i := 0 to |ps|
      invariant forall t :: ListOf(lists, t) == ListOf(before, t) + EntriesIn(ps[..i], t)
    {
      AppendOne(before, lists, ps, i);
      lists := Appended(lists, ps[i]);
    }
    assert ps[..|ps|] == ps;
  }

  // ---------- the rows of a whole index ----------

  lemma {:induction false} PartsPrefix(objects: map<Ref, Object>, shards: seq<IndexShard>, n: nat)
    requires StoredShards(objects, shards) && n < |shards|
    ensures StoredShards(objects, shards[..n]) && StoredShards(objects, shards[..n + 1])
    ensures Parts(objects, shards[..n]) == Parts(objects, shards)[..n]
    ensures Parts(objects, shards[..n + 1]) == Parts(objects, shards[..n]) + [objects[shards[n].artifact].shard]
  {
  }

  lemma {:induction false} RowsPrefix(parts: seq<Shard>, n: nat)
    requires n <= |parts|
    ensures |AllRows(parts[..n])| <= |AllRows(parts)| && AllRows(parts)[..|AllRows(parts[..n])|] == AllRows(parts[..n])
    decreases |parts| - n
  {
    if n < |parts| {
      RowsPrefix(parts, n + 1);
      assert parts[..n + 1][..n] == parts[..n];
    } else {
      assert parts[..n] == parts;
    }
  }

  // Of a fitting index, every front is fitting, and the next shard fits onto it.
  lemma {:induction false} FrontFits(cfg: Config, idx: LaneIndex, m: ChunkManifest, parts: seq<Shard>,
          shards: seq<IndexShard>, n: nat)
    requires PartsFit(cfg, idx, m, parts, shards) && n < |parts|
    ensures ShardFits(cfg, idx, m, parts[n], shards[n].chunkIds)
    ensures DistinctIds(AllRows(parts[..n]) + parts[n].rows)
    ensures forall k :: 0 <= k < n ==> shards[k].artifact != shards[n].artifact
  {
    assert PartFits(cfg, idx, m, parts, shards, n);
    RowsPrefix(parts, n + 1);
    assert parts[..n + 1][..n] == parts[..n];
    var front := AllRows(parts[..n]) + parts[n].rows;
    forall i, j | 0 <= i < j < |front| ensures front[i].chunk.id != front[j].chunk.id {
      assert front[i] == AllRows(parts)[i] && front[j] == AllRows(parts)[j];
    }
  }

  // ---------- the store and the service ----------

  // A store of objects under their digests: what is under a digest stays there. `clashed`
  // records whether an object was ever put that has the digest of a different stored one.
  class ObjectStore {
    const digest: Object -> Ref
    var objects: map<Ref, Object>
    ghost var clashed: bool

    ghost predicate Valid()
      reads this
    {
      forall r :: r in objects ==> digest(objects[r]) == r
    }

    constructor (digest: Object -> Ref)
      ensures Valid() && objects == map[] && !clashed
    {
      this.digest, this.objects, this.clashed := digest, map[], false;
    }

    method Put(o: Object) returns (r: Ref)
      requires Valid()
      modifies this
      ensures Valid() && r == digest(o) && objects == if r in old(objects) then old(objects) else old(objects)[r := o]
      ensures clashed <==> old(clashed) || (r in old(objects) && old(objects)[r] != o)
    {
      r := digest(o);
      clashed := clashed || (r in objects && objects[r] != o);
      if r !in objects {
        objects := objects[r := o];
      }
    }
  }

  // What has been loaded after the first n shards.
  ghost predicate LoadedFront(objects: map<Ref, Object>, cfg: Config, idx: LaneIndex, m: ChunkManifest, n: nat,
                              rows: map<Text, Row>, lists: PostingLists, usage: Usage)
    requires n <= |idx.shards|
  {
    StoredShards(objects, idx.shards[..n])
    && LoadedParts(cfg, idx, m, Parts(objects, idx.shards[..n]), idx.shards[..n], rows, lists, usage)
  }

  ghost predicate LoadedParts(cfg: Config, idx: LaneIndex, m: ChunkManifest, parts: seq<Shard>, shards: seq<IndexShard>,
                              rows: map<Text, Row>, lists: PostingLists, usage: Usage)
  {
    PartsFit(cfg, idx, m, parts, shards) && RowsOrdered(AllRows(parts)) && rows == ById(AllRows(parts))
    && ListsRight(AllRows(parts), lists) && usage == TotalUsage(parts)
  }

  ghost predicate ListsRight(rows: seq<Row>, lists: PostingLists) {
    AllOrdered(VectorsOf(rows)) && Inverts(lists, VectorsOf(rows))
  }

  lemma {:induction false} ListsGrowAll(all: seq<Row>, more: seq<Row>, ps: seq<Posting>, lists: PostingLists,
          lists': PostingLists)
    requires RowsOrdered(all) && RowsOrdered(more) && DistinctIds(all + more) && ArePostings(more, ps)
             && ListsRight(all, lists)
    requires forall t :: ListOf(lists', t) == ListOf(lists, t) + EntriesIn(ps, t)
    ensures ListsRight(all + more, lists')
  {
    JoinedRows(all, more);
    VectorsSay(all + more);
    forall t ensures InvertsToken(ListOf(lists', t), t, VectorsOf(all + more)) {
      assert InvertsToken(ListOf(lists, t), t, VectorsOf(all));
      ListsGrow(all, lists, more, ps, t);
    }
  }

  lemma {:induction false} FitsGrow(cfg: Config, idx: LaneIndex, m: ChunkManifest, parts: seq<Shard>,
          shards: seq<IndexShard>, part: Shard, shard: IndexShard)
    requires PartsFit(cfg, idx, m, parts, shards) && ShardFits(cfg, idx, m, part, shard.chunkIds)
    requires forall k :: 0 <= k < |shards| ==> shards[k].artifact != shard.artifact
    requires DistinctIds(AllRows(parts) + part.rows)
    ensures PartsFit(cfg, idx, m, parts + [part], shards + [shard])
    ensures AllRows(parts + [part]) == AllRows(parts) + part.rows
  {
    assert (parts + [part])[..|parts|] == parts;
    var ps, ss := parts + [part], shards + [shard];
    forall i | 0 <= i < |ps| ensures PartFits(cfg, idx, m, ps, ss, i) {
      if i < |parts| {
        assert PartFits(cfg, idx, m, parts, shards, i);
      }
    }
  }

  // If the parts so far and the next one fit, they fit together.
  lemma {:induction false} FrontGrows(cfg: Config, idx: LaneIndex, m: ChunkManifest, parts: seq<Shard>,
          shards: seq<IndexShard>, part: Shard, shard: IndexShard, rows: map<Text, Row>, lists: PostingLists,
          usage: Usage, rows': map<Text, Row>, lists': PostingLists)
    requires LoadedParts(cfg, idx, m, parts, shards, rows, lists, usage) && ShardFits(cfg, idx, m, part, shard.chunkIds)
    requires forall k :: 0 <= k < |shards| ==> shards[k].artifact != shard.artifact
    requires DistinctIds(AllRows(parts) + part.rows) && rows' == ById(AllRows(parts) + part.rows)
    requires forall t :: ListOf(lists', t) == ListOf(lists, t) + EntriesIn(part.postings, t)
    ensures LoadedParts(cfg, idx, m, parts + [part], shards + [shard], rows', lists', AddUsage(usage, part.usage))
  {
    FitsGrow(cfg, idx, m, parts, shards, part, shard);
    assert (parts + [part])[..|parts|] == parts;
    JoinedRows(AllRows(parts), part.rows);
    ListsGrowAll(AllRows(parts), part.rows, part.postings, lists, lists');
  }

  // Shard n is stored, new, and fits onto the shards before it.
  ghost predicate NextFits(objects: map<Ref, Object>, cfg: Config, idx: LaneIndex, m: ChunkManifest, n: nat)
    requires n < |idx.shards| && StoredShards(objects, idx.shards[..n])
  {
    var shard := idx.shards[n];
    (forall k :: 0 <= k < n ==> idx.shards[k].artifact != shard.artifact)
    && shard.artifact in objects && objects[shard.artifact].ShardObject?
    && ShardFits(cfg, idx, m, objects[shard.artifact].shard, shard.chunkIds)
    && DistinctIds(AllRows(Parts(objects, idx.shards[..n])) + objects[shard.artifact].shard.rows)
  }

  lemma {:induction false} AcceptedShardsFit(objects: map<Ref, Object>, cfg: Config, idx: LaneIndex, m: ChunkManifest,
          n: nat)
    requires Accepts(objects, cfg, idx, m) && n < |idx.shards|
    ensures StoredShards(objects, idx.shards[..n]) && NextFits(objects, cfg, idx, m, n)
  {
    PartsPrefix(objects, idx.shards, n);
    FrontFits(cfg, idx, m, Parts(objects, idx.shards), idx.shards, n);
  }

  lemma {:induction false} FrontParts(objects: map<Ref, Object>, shards: seq<IndexShard>, n: nat)
    requires n < |shards| && StoredShards(objects, shards[..n])
    requires shards[n].artifact in objects && objects[shards[n].artifact].ShardObject?
    ensures shards[..n + 1] == shards[..n] + [shards[n]] && StoredShards(objects, shards[..n + 1])
    ensures Parts(objects, shards[..n + 1]) == Parts(objects, shards[..n]) + [objects[shards[n].artifact].shard]
  {
    assert forall i :: 0 <= i < n ==> shards[..n + 1][i] == shards[..n][i];
  }

  lemma {:induction false} FrontStep(objects: map<Ref, Object>, cfg: Config, idx: LaneIndex, m: ChunkManifest, n: nat,
                  rows: map<Text, Row>, lists: PostingLists, usage: Usage, rows': map<Text, Row>, lists': PostingLists)
    requires n < |idx.shards| && LoadedFront(objects, cfg, idx, m, n, rows, lists, usage)
    requires NextFits(objects, cfg, idx, m, n)
    requires var part := objects[idx.shards[n].artifact].shard;
             rows' == ById(AllRows(Parts(objects, idx.shards[..n])) + part.rows)
             && forall t :: ListOf(lists', t) == ListOf(lists, t) + EntriesIn(part.postings, t)
    ensures LoadedFront(objects, cfg, idx, m, n + 1, rows', lists',
                        AddUsage(usage, objects[idx.shards[n].artifact].shard.usage))
  {
    var front, shards := Parts(objects, idx.shards[..n]), idx.shards[..n];
    var part, declared := objects[idx.shards[n].artifact].shard, idx.shards[n];
    forall k | 0 <= k < |shards| ensures shards[k].artifact != declared.artifact {
      assert shards[k] == idx.shards[k];
    }
    FrontGrows(cfg, idx, m, front, shards, part, declared, rows, lists, usage, rows', lists');
    FrontParts(objects, idx.shards, n);
  }

  // Stored lists against recomputed ones.
  method CheckPostings(rows: seq<Row>, postings: seq<Posting>) returns (ok: bool)
    requires RowsOrdered(rows)
    ensures ok <==> ArePostings(rows, postings)
  {
    var computed := Postings(rows);
    ok := postings == computed;
    if !ok && ArePostings(rows, postings) {
      PostingsUnique(rows, postings, computed);
    }
  }

  // One loaded shard against the manifest and the rows before it.
  method LoadPart(cfg: Config, idx: LaneIndex, m: ChunkManifest, expected: map<Text, Chunk>, ghost before: seq<Row>,
          part: Shard, ids: seq<Text>, rows: map<Text, Row>, lists: PostingLists)
    returns (ok: bool, rows': map<Text, Row>, lists': PostingLists)
    requires Expects(expected, m.chunks) && rows == ById(before) && DistinctIds(before)
    ensures ok <==> ShardFits(cfg, idx, m, part, ids) && DistinctIds(before + part.rows)
    ensures ok ==> rows' == ById(before + part.rows)
    ensures ok ==> forall t :: ListOf(lists', t) == ListOf(lists, t) + EntriesIn(part.postings, t)
  {
    ok, rows', lists' := false, rows, lists;
    if ids == [] || !HeaderFits(cfg, idx, m, part) || |part.rows| != |ids| {
      return;
    }
    ok, rows' := LoadRows(cfg, m.chunks, expected, rows, before, part.rows, ids);
    if !ok {
      return;
    }
    assert RowsOrdered(part.rows);
    ok := CheckPostings(part.rows, part.postings);
    if ok {
      lists' := AppendLists(lists, part.postings);
    }
  }

  // One declared shard: found in the store, checked, its rows and lists added.
  method LoadShard(objects: map<Ref, Object>, cfg: Config, idx: LaneIndex, m: ChunkManifest, expected: map<Text, Chunk>,
          n: nat, rows: map<Text, Row>, lists: PostingLists, usage: Usage)
    returns (ok: bool, rows': map<Text, Row>, lists': PostingLists, usage': Usage)
    requires n < |idx.shards| && LoadedFront(objects, cfg, idx, m, n, rows, lists, usage) && Expects(expected, m.chunks)
    ensures ok <==> NextFits(objects, cfg, idx, m, n)
    ensures ok ==> LoadedFront(objects, cfg, idx, m, n + 1, rows', lists', usage')
  {
    ok, rows', lists', usage' := false, rows, lists, usage;
    var declared := idx.shards[n];
    if (exists k :: 0 <= k < n && idx.shards[k].artifact == declared.artifact)
       || declared.artifact !in objects || !objects[declared.artifact].ShardObject? {
      return;
    }
    var part := objects[declared.artifact].shard;
    ghost var front := Parts(objects, idx.shards[..n]);
    ok, rows', lists' := LoadPart(cfg, idx, m, expected, AllRows(front), part, declared.chunkIds, rows, lists);
    if ok {
      usage' := AddUsage(usage, part.usage);
      FrontStep(objects, cfg, idx, m, n, rows, lists, usage, rows', lists');
    }
  }

  // Opening succeeds exactly on acceptable indexes, and then holds them.
  method Open(objects: map<Ref, Object>, cfg: Config, ref: Ref, idx: LaneIndex, m: ChunkManifest)
    returns (r: Option<Snapshot>)
    ensures r.Some? <==> Accepts(objects, cfg, idx, m)
    ensures r.Some? ==> r.value.index == idx && r.value.ref == ref && r.value.manifest == m
                        && Holds(r.value, Parts(objects, idx.shards))
  {
    hide LoadedFront, PartsFit, Holds, Parts, NextFits, IndexFits, Expects, AllRows;
    var ok := ValidateManifest(m);
    if !ok || !IndexFits(cfg, idx, m) {
      return None;
    }
    var expected := Expected(m.chunks);
    var rows: map<Text, Row>, lists: PostingLists, usage := map[], map[], Usage(0, 0);
    NothingLoaded(objects, cfg, idx, m);
    for n := 0 to |idx.shards|
      invariant LoadedFront(objects, cfg, idx, m, n, rows, lists, usage)
    {
      if Accepts(objects, cfg, idx, m) {
        AcceptedShardsFit(objects, cfg, idx, m, n);
      }
      ok, rows, lists, usage := LoadShard(objects, cfg, idx, m, expected, n, rows, lists, usage);
      if !ok {
        return None;
      }
    }
    var snapshot := Snapshot(idx, ref, m, rows, lists, usage);
    LoadedWhole(objects, cfg, idx, m, snapshot);
    if |rows| != |expected| {
      return None;
    }
    return Some(snapshot);
  }

  lemma {:induction false} NothingLoaded(objects: map<Ref, Object>, cfg: Config, idx: LaneIndex, m: ChunkManifest)
    ensures LoadedFront(objects, cfg, idx, m, 0, map[], map[], Usage(0, 0))
  {
  }

  // With every shard loaded, the snapshot holds the index, and only missing chunks can be wrong with it.
  lemma {:induction false} LoadedWhole(objects: map<Ref, Object>, cfg: Config, idx: LaneIndex, m: ChunkManifest,
          s: Snapshot)
    requires LoadedFront(objects, cfg, idx, m, |idx.shards|, s.rows, s.lists, s.usage)
    ensures StoredShards(objects, idx.shards)
    ensures PartsFit(cfg, idx, m, Parts(objects, idx.shards), idx.shards) && Holds(s, Parts(objects, idx.shards))
    ensures |s.rows| == |AllRows(Parts(objects, idx.shards))|
  {
    assert idx.shards[..|idx.shards|] == idx.shards;
    ByIdSize(AllRows(Parts(objects, idx.shards)));
  }
}
