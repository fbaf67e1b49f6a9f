// Chunk manifests, shared by the lanes: which revisions were chunked, into which chunks,
// and how a lane index lists them.
module Corpus {
  import opened Basics
  import opened Bytes
  import opened Sorting

  // `intact` stands for the checks a record passes on its own: text not blank, its hash
  // and encoding key match, and its source location is well formed.
  datatype Chunk = Chunk(
    id: Text, revisionId: Text, contentId: string, sourceKind: string, original: string, required: bool,
    intact: bool, text: string)

  // `intact` stands for the key and hash format of the original, and a known source kind.
  datatype Input = Input(
    revisionId: Text, contentId: string, sourceKind: string, original: string, chunkCount: int, intact: bool)

  // `intact` stands for the schema version, module, release, input hash and profile.
  datatype ChunkManifest = ChunkManifest(
    intact: bool, moduleId: string, releaseId: string, inputManifestHash: string, inputs: seq<Input>,
    chunks: seq<Chunk>)

  predicate FromInput(c: Chunk, input: Input) {
    c.revisionId == input.revisionId && c.original == input.original && c.contentId == input.contentId
    && c.sourceKind == input.sourceKind
  }

  predicate SoundInput(input: Input) {
    input.revisionId != [] && input.contentId != "" && input.chunkCount >= 1 && input.intact
  }

  function CountOf(chunks: seq<Chunk>, revision: Text): nat {
    if chunks == [] then 0
    else CountOf(chunks[..|chunks| - 1], revision) + (if chunks[|chunks| - 1].revisionId == revision then 1 else 0)
  }

  predicate DistinctRevisions(inputs: seq<Input>) {
    forall i, j :: 0 <= i < j < |inputs| ==> inputs[i].revisionId != inputs[j].revisionId
  }

  predicate DistinctChunks(chunks: seq<Chunk>) {
    forall i, j :: 0 <= i < j < |chunks| ==> chunks[i].id != chunks[j].id
  }

  predicate HasSource(inputs: seq<Input>, c: Chunk) {
    exists k :: 0 <= k < |inputs| && FromInput(c, inputs[k])
  }

  predicate SoundChunk(inputs: seq<Input>, c: Chunk) {
    c.id != [] && c.required && c.intact && HasSource(inputs, c)
  }

  // What a manifest must be, whatever order it is checked in.
  predicate Valid(m: ChunkManifest) {
    m.intact && m.inputs != [] && m.chunks != []
    && (forall i :: 0 <= i < |m.inputs| ==> SoundInput(m.inputs[i]))
    && DistinctRevisions(m.inputs) && DistinctChunks(m.chunks)
    && (forall i :: 0 <= i < |m.chunks| ==> SoundChunk(m.inputs, m.chunks[i]))
    && (forall i :: 0 <= i < |m.inputs| ==> CountOf(m.chunks, m.inputs[i].revisionId) == m.inputs[i].chunkCount)
  }

  function Total(inputs: seq<Input>, chunks: seq<Chunk>): nat {
    if inputs == [] then 0
    else Total(inputs[..|inputs| - 1], chunks) + CountOf(chunks, inputs[|inputs| - 1].revisionId)
  }

  function SumChunkCounts(inputs: seq<Input>): int {
    if inputs == [] then 0 else SumChunkCounts(inputs[..|inputs| - 1]) + inputs[|inputs| - 1].chunkCount
  }

  // One more chunk raises the total by one if its revision is listed, and by nothing else.
  lemma {:induction false} TotalOfOneMore(inputs: seq<Input>, chunks: seq<Chunk>)
    requires chunks != [] && DistinctRevisions(inputs)
    ensures Total(inputs, chunks) == Total(inputs, chunks[..|chunks| - 1])
              + (if exists k :: 0 <= k < |inputs| && inputs[k].revisionId == chunks[|chunks| - 1].revisionId then 1
                  else 0)
  {
    if inputs != [] {
      var rest := inputs[..|inputs| - 1];
      var r := chunks[|chunks| - 1].revisionId;
      TotalOfOneMore(rest, chunks);
      if exists k :: 0 <= k < |rest| && rest[k].revisionId == r {
        var k :| 0 <= k < |rest| && rest[k].revisionId == r;
        assert inputs[k].revisionId == r;
        assert inputs[|inputs| - 1].revisionId != r;
      } else if inputs[|inputs| - 1].revisionId != r {
        assert !exists k :: 0 <= k < |inputs| && inputs[k].revisionId == r;
      }
    }
  }

  lemma {:induction false} TotalCountsEveryChunk(inputs: seq<Input>, chunks: seq<Chunk>)
    requires DistinctRevisions(inputs)
    requires forall i :: 0 <= i < |chunks| ==> SoundChunk(inputs, chunks[i])
    ensures Total(inputs, chunks) == |chunks|
  {
    if chunks == [] {
      NothingToCount(inputs);
    } else {
      TotalCountsEveryChunk(inputs, chunks[..|chunks| - 1]);
      TotalOfOneMore(inputs, chunks);
      assert SoundChunk(inputs, chunks[|chunks| - 1]);
    }
  }

  lemma {:induction false} NothingToCount(inputs: seq<Input>)
    ensures Total(inputs, []) == 0
  {
    if inputs != [] {
      NothingToCount(inputs[..|inputs| - 1]);
    }
  }

  lemma {:induction false} TotalIsTheSum(inputs: seq<Input>, chunks: seq<Chunk>)
    requires forall i :: 0 <= i < |inputs| ==> CountOf(chunks, inputs[i].revisionId) == inputs[i].chunkCount
    ensures Total(inputs, chunks) == SumChunkCounts(inputs)
  {
    if inputs != [] {
      TotalIsTheSum(inputs[..|inputs| - 1], chunks);
    }
  }

  // The chunk counts of the inputs of a valid manifest add up to its chunks.
  lemma {:induction false} ChunkCountsAddUp(m: ChunkManifest)
    requires Valid(m)
    ensures SumChunkCounts(m.inputs) == |m.chunks|
  {
    TotalCountsEveryChunk(m.inputs, m.chunks);
    TotalIsTheSum(m.inputs, m.chunks);
  }

  // The three passes over a manifest: inputs, chunks, counts.
  method ValidateManifest(m: ChunkManifest) returns (ok: bool)
    ensures ok <==> Valid(m)
  {
    hide SoundInput, CountOf, DistinctChunks, DistinctRevisions, Indexes;
    if !m.intact || m.chunks == [] || m.inputs == [] {
      return false;
    }
    var known: map<Text, Input>;
    ok, known := IndexInputs(m.inputs);
    if !ok {
      return false;
    }
    var counts: map<Text, nat>;
    ok, counts := CountChunks(known, m.chunks);
    forall i | 0 <= i < |m.chunks| ensures SoundBy(known, m.chunks[i]) <==> SoundChunk(m.inputs, m.chunks[i]) {
      SourceLookup(m.inputs, known, m.chunks[i]);
    }
    if !ok {
      return false;
    }
    for i := 0 to |m.inputs|
      invariant forall k :: 0 <= k < i ==> CountOf(m.chunks, m.inputs[k].revisionId) == m.inputs[k].chunkCount
    {
      var n := if m.inputs[i].revisionId in counts then counts[m.inputs[i].revisionId] else 0;
      if n != m.inputs[i].chunkCount {
        return false;
      }
    }
  }

  ghost predicate Indexes(known: map<Text, Input>, inputs: seq<Input>) {
    (forall i :: 0 <= i < |inputs| ==> inputs[i].revisionId in known && known[inputs[i].revisionId] == inputs[i])
    && (forall id :: id in known ==> exists i :: 0 <= i < |inputs| && inputs[i].revisionId == id)
  }

  lemma {:induction false} IndexedOneMore(known: map<Text, Input>, inputs: seq<Input>, next: Input)
    requires Indexes(known, inputs) && DistinctRevisions(inputs) && next.revisionId !in known
    ensures Indexes(known[next.revisionId := next], inputs + [next]) && DistinctRevisions(inputs + [next])
  {
    var all, more := inputs + [next], known[next.revisionId := next];
    forall id | id in more ensures exists i :: 0 <= i < |all| && all[i].revisionId == id {
      if id == next.revisionId {
        assert all[|inputs|].revisionId == id;
      } else {
        var i :| 0 <= i < |inputs| && inputs[i].revisionId == id;
        assert all[i].revisionId == id;
      }
    }
  }

  method IndexInputs(inputs: seq<Input>) returns (ok: bool, known: map<Text, Input>)
    ensures ok <==> (forall i :: 0 <= i < |inputs| ==> SoundInput(inputs[i])) && DistinctRevisions(inputs)
    ensures ok ==> Indexes(known, inputs)
  {
    hide SoundInput;
    known := map[];
    for i := 0 to |inputs|
      invariant forall k :: 0 <= k < i ==> SoundInput(inputs[k])
      invariant DistinctRevisions(inputs[..i]) && Indexes(known, inputs[..i])
    {
      if !SoundInput(inputs[i]) {
        return false, known;
      }
      if inputs[i].revisionId in known {
        var k :| 0 <= k < i && inputs[..i][k].revisionId == inputs[i].revisionId;
        assert inputs[k].revisionId == inputs[i].revisionId;
        return false, known;
      }
      assert inputs[..i + 1] == inputs[..i] + [inputs[i]];
      IndexedOneMore(known, inputs[..i], inputs[i]);
      known := known[inputs[i].revisionId := inputs[i]];
    }
    assert inputs[..|inputs|] == inputs;
    ok := true;
  }

  ghost predicate Counts(counts: map<Text, nat>, chunks: seq<Chunk>) {
    forall id :: (if id in counts then counts[id] else 0) == CountOf(chunks, id)
  }

  function CountOneMore(counts: map<Text, nat>, id: Text): map<Text, nat> {
    counts[id := (if id in counts then counts[id] else 0) + 1]
  }

  lemma {:induction false} CountedOneMore(counts: map<Text, nat>, chunks: seq<Chunk>)
    requires chunks != [] && Counts(counts, chunks[..|chunks| - 1])
    ensures Counts(CountOneMore(counts, chunks[|chunks| - 1].revisionId), chunks)
  {
  }

  // The ids of the first n chunks.
  ghost function Ids(chunks: seq<Chunk>, n: nat): set<Text>
    requires n <= |chunks|
  {
    set k | 0 <= k < n :: chunks[k].id
  }

  predicate SoundBy(known: map<Text, Input>, c: Chunk) {
    c.revisionId in known && FromInput(c, known[c.revisionId]) && c.id != [] && c.required && c.intact
  }

  method CountChunks(known: map<Text, Input>, chunks: seq<Chunk>) returns (ok: bool, counts: map<Text, nat>)
    ensures ok <==> DistinctChunks(chunks) && forall i :: 0 <= i < |chunks| ==> SoundBy(known, chunks[i])
    ensures ok ==> Counts(counts, chunks)
  {
    counts := map[];
    var seen: set<Text> := {};
    for i := 0 to |chunks|
      invariant forall k :: 0 <= k < i ==> SoundBy(known, chunks[k])
      invariant seen == Ids(chunks, i)
      invariant forall k, l :: 0 <= k < l < i ==> chunks[k].id != chunks[l].id
      invariant Counts(counts, chunks[..i])
    {
      var c := chunks[i];
      if !SoundBy(known, c) || c.id in seen {
        return false, counts;
      }
      seen := seen + {c.id};
      assert chunks[..i + 1][..i] == chunks[..i];
      CountedOneMore(counts, chunks[..i + 1]);
      counts := CountOneMore(counts, c.revisionId);
    }
    assert chunks[..|chunks|] == chunks;
    ok := true;
  }

  lemma {:induction false} SourceLookup(inputs: seq<Input>, known: map<Text, Input>, c: Chunk)
    requires Indexes(known, inputs) && DistinctRevisions(inputs)
    ensures HasSource(inputs, c) <==> c.revisionId in known && FromInput(c, known[c.revisionId])
  {
    if c.revisionId in known {
      var i :| 0 <= i < |inputs| && inputs[i].revisionId == c.revisionId;
      assert known[c.revisionId] == inputs[i];
    }
  }

  // Every chunk of a valid manifest is sound and agrees with one of its inputs.
  lemma {:induction false} ChunkHasItsInput(m: ChunkManifest, c: Chunk)
    requires Valid(m) && c in m.chunks
    ensures c.id != [] && c.required && c.intact
    ensures exists i :: 0 <= i < |m.inputs| && m.inputs[i].revisionId == c.revisionId
                        && m.inputs[i].contentId == c.contentId && m.inputs[i].sourceKind == c.sourceKind
                        && m.inputs[i].original == c.original && m.inputs[i].intact
                        && m.inputs[i].revisionId != [] && m.inputs[i].contentId != "" && m.inputs[i].chunkCount >= 1
  {
    var i :| 0 <= i < |m.chunks| && m.chunks[i] == c;
    assert SoundChunk(m.inputs, m.chunks[i]);
    var k :| 0 <= k < |m.inputs| && FromInput(c, m.inputs[k]);
    assert SoundInput(m.inputs[k]);
  }

  // The smallest valid manifests: one input with one chunk.
  lemma {:induction false} OneChunkIsEnough(m: ChunkManifest, input: Input, c: Chunk)
    requires m.intact && m.inputs == [input] && m.chunks == [c]
    requires c.id != [] && c.required && c.intact && input.intact && input.chunkCount == 1
    requires input.revisionId == c.revisionId != [] && input.contentId == c.contentId != ""
             && input.sourceKind == c.sourceKind && input.original == c.original
    ensures Valid(m)
  {
    assert FromInput(c, m.inputs[0]);
    assert m.chunks[..0] == [];
    assert CountOf(m.chunks, input.revisionId) == 1;
  }

  // ---------- the revisions a query asks for ----------

  ghost predicate GoodRevisions(revisions: seq<Text>) {
    Distinct(revisions) && [] !in revisions
  }

  method CheckRevisions(revisions: seq<Text>) returns (ok: bool)
    ensures ok <==> GoodRevisions(revisions)
  {
    var valid: set<Text> := {};
    for i := 0 to |revisions|
      invariant valid == Elements(revisions[..i]) && GoodRevisions(revisions[..i])
    {
      if revisions[i] == [] {
        assert [] in revisions;
        return false;
      }
      if revisions[i] in valid {
        var k :| 0 <= k < i && revisions[..i][k] == revisions[i];
        return false;
      }
      assert revisions[..i + 1] == revisions[..i] + [revisions[i]];
      valid := valid + {revisions[i]};
    }
    assert revisions[..|revisions|] == revisions;
    ok := true;
  }

  // ---------- lane indexes ----------

  type Ref = string

  datatype Usage = Usage(promptTokens: int, totalTokens: int)

  datatype Header = Header(buildId: string, generation: int, chunkManifest: Ref, profile: string)

  datatype IndexShard = IndexShard(artifact: Ref, chunkIds: seq<Text>)

  datatype LaneIndex = LaneIndex(schemaVersion: int, header: Header, inputManifestHash: string, shards: seq<IndexShard>)

  function AddUsage(a: Usage, b: Usage): Usage {
    Usage(a.promptTokens + b.promptTokens, a.totalTokens + b.totalTokens)
  }

  predicate SoundUsage(u: Usage) {
    0 <= u.promptTokens <= u.totalTokens
  }

  predicate DistinctArtifacts(shards: seq<IndexShard>) {
    forall i, j :: 0 <= i < j < |shards| ==> shards[i].artifact != shards[j].artifact
  }

  ghost predicate Expects(expected: map<Text, Chunk>, chunks: seq<Chunk>) {
    (forall c: Chunk :: c in chunks <==> c.id in expected && expected[c.id] == c)
    && forall id :: id in expected ==> expected[id].id == id
  }

  method Expected(chunks: seq<Chunk>) returns (expected: map<Text, Chunk>)
    requires DistinctChunks(chunks)
    ensures Expects(expected, chunks) && |expected| == |chunks|
  {
    expected := map[];
    for i := 0 to |chunks|
      invariant expected == ChunksById(chunks[..i])
    {
      assert chunks[..i + 1][..i] == chunks[..i];
      expected := expected[chunks[i].id := chunks[i]];
    }
    assert chunks[..|chunks|] == chunks;
    ChunksByIdSays(chunks);
  }

  ghost function ChunksById(chunks: seq<Chunk>): map<Text, Chunk> {
    if chunks == [] then map[] else ChunksById(chunks[..|chunks| - 1])[chunks[|chunks| - 1].id := chunks[|chunks| - 1]]
  }

  lemma {:induction false} ChunksByIdSays(chunks: seq<Chunk>)
    requires DistinctChunks(chunks)
    ensures Expects(ChunksById(chunks), chunks) && |ChunksById(chunks)| == |chunks|
  {
    if chunks != [] {
      var rest, last := chunks[..|chunks| - 1], chunks[|chunks| - 1];
      ChunksByIdSays(rest);
      assert chunks == rest + [last];
      ExpectsOneMore(ChunksById(rest), rest, last);
    }
  }

  lemma {:induction false} ExpectsOneMore(expected: map<Text, Chunk>, chunks: seq<Chunk>, c: Chunk)
    requires Expects(expected, chunks) && forall d: Chunk :: d in chunks ==> d.id != c.id
    ensures c.id !in expected && Expects(expected[c.id := c], chunks + [c])
  {
  }

  // As many different listed chunks as there are chunks are all of them.
  lemma {:induction false} EveryChunkListed(chunks: seq<Chunk>, ids: seq<Text>, c: Chunk)
    requires DistinctChunks(chunks) && Distinct(ids) && |ids| == |chunks| && c in chunks
    requires forall i :: 0 <= i < |ids| ==> exists d :: d in chunks && d.id == ids[i]
    ensures c.id in ids
  {
    var expected := ChunksById(chunks);
    ChunksByIdSays(chunks);
    DistinctSize(ids);
    forall id | id in Elements(ids) ensures id in expected.Keys {
    }
    if c.id !in ids {
      FewerThanAll(Elements(ids), expected.Keys, c.id);
    }
  }

  lemma {:induction false} DistinctSize(ids: seq<Text>)
    requires Distinct(ids)
    ensures |Elements(ids)| == |ids|
  {
    if ids != [] {
      var init, last := ids[..|ids| - 1], ids[|ids| - 1];
      DistinctSize(init);
      assert ids == init + [last];
      assert Elements(ids) == Elements(init) + {last};
    }
  }

  lemma {:induction false} FewerThanAll(some: set<Text>, all: set<Text>, id: Text)
    requires some <= all && id in all && id !in some
    ensures |some| < |all|
  {
    SubsetSize(some, all - {id});
  }

  lemma {:induction false} SameIdSameChunk(chunks: seq<Chunk>, a: Chunk, b: Chunk)
    requires DistinctChunks(chunks) && a in chunks && b in chunks && a.id == b.id
    ensures a == b
  {
    var i :| 0 <= i < |chunks| && chunks[i] == a;
    var j :| 0 <= j < |chunks| && chunks[j] == b;
    assert i == j;
  }
}
