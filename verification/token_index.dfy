// The persistent token-row index: shards of matrices with the list of their valid rows,
// opened only if they are exactly what their manifest calls for.
module TokenIndex {
  import opened Basics
  import opened Bytes
  import opened Sorting
  import opened Corpus
  import opened SparseVectors
  import opened MaxSimScore
  import opened TokenSearch
  import opened TokenService

  datatype StoredMatrix = StoredMatrix(row: MatrixRow, matrixHash: string)

  datatype TokenRow = TokenRow(chunkId: Text, position: nat)

  datatype MatrixShard = MatrixShard(
    schemaVersion: int, header: Header, moduleId: string, releaseId: string, binding: string, usage: Usage,
    rows: seq<StoredMatrix>, tokenRows: seq<TokenRow>)

  // `binding` fixes model, space and contract; `profile` the lane profile that matches it.
  datatype IndexConfig = IndexConfig(profile: string, binding: string, contract: MatrixContract,
                                     matrixHash: TokenMatrix -> string)

  type Shards = map<Ref, MatrixShard>

  // ---------- token rows ----------

  function PositionsTo(id: Text, mask: seq<bool>, n: nat): seq<TokenRow>
    requires n <= |mask|
  {
    if n == 0 then [] else PositionsTo(id, mask, n - 1) + (if mask[n - 1] then [TokenRow(id, n - 1)] else [])
  }

  // The valid rows of the matrices, in row and position order.
  function TokenRowsOf(rows: seq<StoredMatrix>): seq<TokenRow> {
    if rows == [] then []
    else
      var last := rows[|rows| - 1].row;
      TokenRowsOf(rows[..|rows| - 1]) + PositionsTo(last.chunk.id, last.matrix.mask, |last.matrix.mask|)
  }

  method TokenRows(rows: seq<StoredMatrix>) returns (result: seq<TokenRow>)
    ensures result == TokenRowsOf(rows)
  {
    result := [];
    for k := 0 to |rows|
      invariant result == TokenRowsOf(rows[..k])
    {
      assert rows[..k + 1][..k] == rows[..k];
      var id, mask := rows[k].row.chunk.id, rows[k].row.matrix.mask;
      ghost var before := result;
      for i := 0 to |mask|
        invariant result == before + PositionsTo(id, mask, i)
      {
        if mask[i] {
          result := result + [TokenRow(id, i)];
        }
      }
    }
    assert rows[..|rows|] == rows;
  }

  predicate DistinctIds(rows: seq<StoredMatrix>) {
    forall i, j :: 0 <= i < j < |rows| ==> rows[i].row.chunk.id != rows[j].row.chunk.id
  }

  // Position p of the matrix of chunk `id` is a valid row.
  ghost predicate IsActive(rows: seq<StoredMatrix>, id: Text, p: int) {
    exists k ::
      0 <= k < |rows| && rows[k].row.chunk.id == id && 0 <= p < |rows[k].row.matrix.mask|
      && rows[k].row.matrix.mask[p]
  }

  lemma {:induction false} PositionsSay(id: Text, mask: seq<bool>, n: nat)
    requires n <= |mask|
    ensures forall i :: 0 <= i < |PositionsTo(id, mask, n)| ==>
              PositionsTo(id, mask, n)[i].chunkId == id && PositionsTo(id, mask, n)[i].position < n
              && mask[PositionsTo(id, mask, n)[i].position]
    ensures forall i, j :: 0 <= i < j < |PositionsTo(id, mask, n)| ==>
              PositionsTo(id, mask, n)[i].position < PositionsTo(id, mask, n)[j].position
    ensures forall p: nat :: p < n && mask[p] ==> TokenRow(id, p) in PositionsTo(id, mask, n)
  {
    if n > 0 {
      PositionsSay(id, mask, n - 1);
    }
  }

  lemma {:induction false} ActiveOneMore(rows: seq<StoredMatrix>, id: Text, p: int)
    requires rows != []
    ensures var last := rows[|rows| - 1].row;
            IsActive(rows, id, p) <==> IsActive(rows[..|rows| - 1], id, p)
                                       || (last.chunk.id == id && 0 <= p < |last.matrix.mask| && last.matrix.mask[p])
  {
    var init := rows[..|rows| - 1];
    if IsActive(init, id, p) {
      var k :| 0 <= k < |init| && init[k].row.chunk.id == id && 0 <= p < |init[k].row.matrix.mask|
        && init[k].row.matrix.mask[p];
      assert rows[k] == init[k];
    }
    if IsActive(rows, id, p) {
      var k :| 0 <= k < |rows| && rows[k].row.chunk.id == id && 0 <= p < |rows[k].row.matrix.mask|
        && rows[k].row.matrix.mask[p];
      assert k < |init| ==> init[k] == rows[k];
    }
  }

  // The listed token rows are the valid rows, each once.
  lemma {:induction false} TokenRowsSay(rows: seq<StoredMatrix>)
    ensures forall t :: t in TokenRowsOf(rows) <==> IsActive(rows, t.chunkId, t.position)
    ensures DistinctIds(rows) ==> Distinct(TokenRowsOf(rows))
  {
    if rows != [] {
      var init, last := rows[..|rows| - 1], rows[|rows| - 1].row;
      TokenRowsSay(init);
      PositionsSay(last.chunk.id, last.matrix.mask, |last.matrix.mask|);
      forall t: TokenRow ensures t in TokenRowsOf(rows) <==> IsActive(rows, t.chunkId, t.position) {
        ActiveOneMore(rows, t.chunkId, t.position);
      }
      if DistinctIds(rows) {
        assert rows == init + [rows[|rows| - 1]];
        LastIsNew(init, rows[|rows| - 1]);
      }
    }
  }

  lemma {:induction false} LastIsNew(init: seq<StoredMatrix>, last: StoredMatrix)
    requires DistinctIds(init + [last])
    ensures forall p :: !IsActive(init, last.row.chunk.id, p)
  {
    forall k | 0 <= k < |init| ensures init[k].row.chunk.id != last.row.chunk.id {
      assert (init + [last])[k] == init[k] && (init + [last])[|init|] == last;
    }
  }

  // ---------- what an acceptable index is ----------

  predicate MatrixFits(ar: Arith, cfg: IndexConfig, chunks: seq<Chunk>, r: StoredMatrix, id: Text) {
    r.row.chunk in chunks && r.row.chunk.id == id && r.matrixHash == cfg.matrixHash(r.row.matrix)
    && ValidMatrix(ar, r.row.matrix, cfg.contract)
  }

  predicate MatricesFit(ar: Arith, cfg: IndexConfig, chunks: seq<Chunk>, rows: seq<StoredMatrix>, ids: seq<Text>) {
    |rows| == |ids| && forall i :: 0 <= i < |rows| ==> MatrixFits(ar, cfg, chunks, rows[i], ids[i])
  }

  predicate ShardFits(ar: Arith, cfg: IndexConfig, idx: LaneIndex, m: ChunkManifest, part: MatrixShard, ids: seq<Text>)
  {
    part.schemaVersion == 1 && part.header == idx.header && part.moduleId == m.moduleId && part.releaseId == m.releaseId
    && part.binding == cfg.binding && SoundUsage(part.usage) && ids != [] && part.tokenRows == TokenRowsOf(part.rows)
    && MatricesFit(ar, cfg, m.chunks, part.rows, ids)
  }

  predicate IndexFits(cfg: IndexConfig, idx: LaneIndex, m: ChunkManifest) {
    idx.schemaVersion == 1 && idx.header.buildId != "" && idx.header.generation >= 1
    && idx.inputManifestHash == m.inputManifestHash && idx.header.profile == cfg.profile && idx.shards != []
  }

  predicate Stored(stored: Shards, shards: seq<IndexShard>) {
    forall i :: 0 <= i < |shards| ==> shards[i].artifact in stored
  }

  // The rows of all shards, in order.
  function AllRows(stored: Shards, shards: seq<IndexShard>): seq<StoredMatrix> {
    if shards == [] then []
    else
      var last := shards[|shards| - 1].artifact;
      AllRows(stored, shards[..|shards| - 1]) + (if last in stored then stored[last].rows else [])
  }

  // The index is stored whole, every shard fits, no chunk is there twice and none is missing.
  predicate Accepts(ar: Arith, cfg: IndexConfig, stored: Shards, idx: LaneIndex, m: ChunkManifest) {
    Valid(m) && IndexFits(cfg, idx, m) && FrontFits(ar, cfg, stored, idx, m, idx.shards)
    && |AllRows(stored, idx.shards)| == |m.chunks|
  }

  predicate FrontFits(ar: Arith, cfg: IndexConfig, stored: Shards, idx: LaneIndex, m: ChunkManifest,
          shards: seq<IndexShard>)
  {
    Stored(stored, shards) && DistinctArtifacts(shards) && DistinctIds(AllRows(stored, shards))
    && forall i :: 0 <= i < |shards| ==> ShardFits(ar, cfg, idx, m, stored[shards[i].artifact], shards[i].chunkIds)
  }

  function RowsById(rows: seq<StoredMatrix>): map<Text, MatrixRow> {
    if rows == [] then map[] else RowsById(rows[..|rows| - 1])[rows[|rows| - 1].row.chunk.id := rows[|rows| - 1].row]
  }

  lemma {:induction false} RowsByIdSay(rows: seq<StoredMatrix>)
    requires DistinctIds(rows)
    ensures |RowsById(rows)| == |rows|
    ensures forall i :: 0 <= i < |rows| ==>
              rows[i].row.chunk.id in RowsById(rows) && RowsById(rows)[rows[i].row.chunk.id] == rows[i].row
    ensures forall id :: id in RowsById(rows) ==>
              exists i :: 0 <= i < |rows| && rows[i].row.chunk.id == id && rows[i].row == RowsById(rows)[id]
  {
    if rows != [] {
      var init, last := rows[..|rows| - 1], rows[|rows| - 1];
      RowsByIdSay(init);
      assert last.row.chunk.id !in RowsById(init);
      forall i | 0 <= i < |rows|
        ensures rows[i].row.chunk.id in RowsById(rows) && RowsById(rows)[rows[i].row.chunk.id] == rows[i].row
      {
        assert i < |init| ==> rows[i] == init[i];
      }
      forall id | id in RowsById(rows)
        ensures exists i :: 0 <= i < |rows| && rows[i].row.chunk.id == id && rows[i].row == RowsById(rows)[id]
      {
        if id == last.row.chunk.id {
          assert rows[|rows| - 1] == last;
        } else {
          var k :| 0 <= k < |init| && init[k].row.chunk.id == id && init[k].row == RowsById(init)[id];
          assert rows[k] == init[k];
        }
      }
    }
  }

  // ---------- the token rows of several shards ----------

  ghost predicate AllValid(ar: Arith, c: MatrixContract, rows: seq<StoredMatrix>) {
    forall i :: 0 <= i < |rows| ==> ValidMatrix(ar, rows[i].row.matrix, c)
  }

  // An active position of the rows is a valid row of their matrices.
  lemma {:induction false} ActiveIsValid(ar: Arith, c: MatrixContract, rows: seq<StoredMatrix>, id: Text, p: int)
    requires DistinctIds(rows) && AllValid(ar, c, rows)
    ensures IsActive(rows, id, p) <==> IsValidRow(MatricesOf(RowsById(rows)), id, p)
  {
    hide RowsById, DistinctIds;
    RowsByIdSay(rows);
    if IsActive(rows, id, p) {
      var k :| 0 <= k < |rows| && rows[k].row.chunk.id == id && 0 <= p < |rows[k].row.matrix.mask|
        && rows[k].row.matrix.mask[p];
      assert RowsById(rows)[id] == rows[k].row;
    }
    if IsValidRow(MatricesOf(RowsById(rows)), id, p) {
      var k :| 0 <= k < |rows| && rows[k].row.chunk.id == id && rows[k].row == RowsById(rows)[id];
    }
  }

  // What the snapshot holds of these rows.
  ghost predicate Loaded(ar: Arith, c: MatrixContract, all: seq<StoredMatrix>, rows: map<Text, MatrixRow>,
          tokens: seq<IndexedToken>)
  {
    DistinctIds(all) && AllValid(ar, c, all) && rows == RowsById(all) && TokensOf(tokens, MatricesOf(rows))
  }

  lemma {:induction false} DistinctSplit(a: seq<StoredMatrix>, b: seq<StoredMatrix>)
    requires DistinctIds(a + b)
    ensures DistinctIds(a) && DistinctIds(b)
    ensures forall i, j :: 0 <= i < |a| && 0 <= j < |b| ==> a[i].row.chunk.id != b[j].row.chunk.id
  {
    assert forall i :: 0 <= i < |a| ==> (a + b)[i] == a[i];
    assert forall j :: 0 <= j < |b| ==> (a + b)[|a| + j] == b[j];
  }

  lemma {:induction false} ActiveJoin(a: seq<StoredMatrix>, b: seq<StoredMatrix>, id: Text, p: int)
    ensures IsActive(a + b, id, p) <==> IsActive(a, id, p) || IsActive(b, id, p)
  {
    assert forall i :: 0 <= i < |a| ==> (a + b)[i] == a[i];
    assert forall j :: 0 <= j < |b| ==> (a + b)[|a| + j] == b[j];
    if IsActive(a + b, id, p) {
      var k :| 0 <= k < |a + b| && (a + b)[k].row.chunk.id == id && 0 <= p < |(a + b)[k].row.matrix.mask|
        && (a + b)[k].row.matrix.mask[p];
      if k < |a| {
        assert a[k] == (a + b)[k];
      } else {
        assert b[k - |a|] == (a + b)[k];
      }
    }
  }

  // More rows leave what is under the other IDs alone.
  lemma {:induction false} RowsKept(a: seq<StoredMatrix>, b: seq<StoredMatrix>, id: Text)
    requires DistinctIds(a + b) && DistinctIds(a) && id in RowsById(a)
    ensures id in RowsById(a + b) && RowsById(a + b)[id] == RowsById(a)[id]
  {
    RowsByIdSay(a);
    RowsByIdSay(a + b);
    var k :| 0 <= k < |a| && a[k].row.chunk.id == id && a[k].row == RowsById(a)[id];
    assert (a + b)[k] == a[k];
  }

  // The token rows of one more shard, looked up.
  ghost predicate Looked(added: seq<IndexedToken>, listed: seq<TokenRow>, matrices: Matrices) {
    |added| == |listed|
    && forall i :: 0 <= i < |added| ==>
         IsValidRow(matrices, listed[i].chunkId, listed[i].position)
         && added[i] ==
              IndexedToken(listed[i].chunkId, listed[i].position,
                           matrices[listed[i].chunkId].values[listed[i].position])
  }

  // Lists of valid rows of disjoint matrices, one after the other, list the valid rows of both.
  lemma {:induction false} ListsJoin(tokens: seq<IndexedToken>, known: Matrices, added: seq<IndexedToken>,
          listed: seq<TokenRow>, all: Matrices)
    requires TokensOf(tokens, known) && (forall id :: id in known ==> id in all && all[id] == known[id])
    requires Looked(added, listed, all) && Distinct(listed) && (forall t :: t in listed ==> t.chunkId !in known)
    requires forall id, p: nat :: IsValidRow(all, id, p) && id !in known ==> TokenRow(id, p) in listed
    ensures TokensOf(tokens + added, all)
  {
    var both := tokens + added;
    forall i | 0 <= i < |both|
      ensures IsValidRow(all, both[i].chunkId, both[i].position)
              && both[i].vector == all[both[i].chunkId].values[both[i].position]
    {
      if i < |tokens| {
        assert IsValidRow(known, tokens[i].chunkId, tokens[i].position);
      }
    }
    forall i, j | 0 <= i < j < |both|
      ensures both[i].chunkId != both[j].chunkId || both[i].position != both[j].position
    {
      if j >= |tokens| {
        assert listed[j - |tokens|] in listed;
        if i < |tokens| {
          assert IsValidRow(known, tokens[i].chunkId, tokens[i].position);
        }
      }
    }
    forall id, p | IsValidRow(all, id, p) ensures HasRow(both, id, p) {
      if id in known {
        assert IsValidRow(known, id, p);
        var k :| 0 <= k < |tokens| && tokens[k].chunkId == id && tokens[k].position == p;
        assert both[k] == tokens[k];
      } else {
        var k :| 0 <= k < |listed| && listed[k] == TokenRow(id, p);
        assert both[|tokens| + k] == added[k];
      }
    }
  }

  lemma {:induction false} TokensGrow(ar: Arith, c: MatrixContract, all: seq<StoredMatrix>, rows: map<Text, MatrixRow>,
          tokens: seq<IndexedToken>, more: seq<StoredMatrix>, added: seq<IndexedToken>)
    requires Loaded(ar, c, all, rows, tokens) && DistinctIds(all + more) && AllValid(ar, c, more)
    requires Looked(added, TokenRowsOf(more), MatricesOf(RowsById(all + more)))
    ensures Loaded(ar, c, all + more, RowsById(all + more), tokens + added)
  {
    hide RowsById, TokenRowsOf, IsActive, Looked, ValidMatrix, IsValidRow;
    var known, matrices := MatricesOf(rows), MatricesOf(RowsById(all + more));
    DistinctSplit(all, more);
    TokenRowsSay(more);
    assert AllValid(ar, c, all + more);
    forall id | id in known ensures id in matrices && matrices[id] == known[id] {
      RowsKept(all, more, id);
    }
    forall t | t in TokenRowsOf(more) ensures t.chunkId !in known {
      ListedIsNew(all, more, t);
    }
    forall id, p: nat | IsValidRow(matrices, id, p) && id !in known ensures TokenRow(id, p) in TokenRowsOf(more) {
      NewIsListed(ar, c, all, more, id, p);
    }
    ListsJoin(tokens, known, added, TokenRowsOf(more), matrices);
  }

  // What the new rows list belongs to new chunks, and every valid row of a new chunk is listed.
  lemma {:induction false} ListedIsNew(all: seq<StoredMatrix>, more: seq<StoredMatrix>, t: TokenRow)
    requires DistinctIds(all + more) && t in TokenRowsOf(more)
    ensures t.chunkId !in RowsById(all)
  {
    hide RowsById, TokenRowsOf;
    DistinctSplit(all, more);
    RowsByIdSay(all);
    TokenRowsSay(more);
    assert IsActive(more, t.chunkId, t.position);
    var k :| 0 <= k < |more| && more[k].row.chunk.id == t.chunkId;
  }

  lemma {:induction false} NewIsListed(ar: Arith, c: MatrixContract, all: seq<StoredMatrix>, more: seq<StoredMatrix>,
          id: Text, p: nat)
    requires DistinctIds(all + more) && AllValid(ar, c, all + more)
    requires IsValidRow(MatricesOf(RowsById(all + more)), id, p) && id !in RowsById(all)
    ensures TokenRow(id, p) in TokenRowsOf(more)
  {
    hide RowsById, TokenRowsOf, ValidMatrix;
    DistinctSplit(all, more);
    RowsByIdSay(all);
    ActiveIsValid(ar, c, all + more, id, p);
    ActiveJoin(all, more, id, p);
    TokenRowsSay(more);
    assert IsActive(more, TokenRow(id, p).chunkId, TokenRow(id, p).position);
  }

  // ---------- opening ----------

  predicate CheckMatrix(cfg: IndexConfig, expected: map<Text, Chunk>, r: StoredMatrix, id: Text) {
    r.row.chunk.id in expected && expected[r.row.chunk.id] == r.row.chunk && id == r.row.chunk.id
    && cfg.matrixHash(r.row.matrix) == r.matrixHash
  }

  lemma {:induction false} NextRow(before: seq<StoredMatrix>, rows: seq<StoredMatrix>, i: nat)
    requires i < |rows| && DistinctIds(before + rows[..i])
    ensures rows[i].row.chunk.id in RowsById(before + rows[..i]) ==> !DistinctIds(before + rows)
    ensures rows[i].row.chunk.id !in RowsById(before + rows[..i]) ==> DistinctIds(before + rows[..i + 1])
    ensures RowsById(before + rows[..i + 1]) == RowsById(before + rows[..i])[rows[i].row.chunk.id := rows[i].row]
  {
    hide RowsById;
    var known, r := before + rows[..i], rows[i];
    RowsByIdSay(known);
    RowsByIdOneMore(known, r);
    assert before + rows[..i + 1] == known + [r];
    if r.row.chunk.id in RowsById(known) {
      var k :| 0 <= k < |known| && known[k].row.chunk.id == r.row.chunk.id;
      assert (before + rows)[k] == known[k] && (before + rows)[|known|] == r;
    }
  }

  lemma {:induction false} RowsByIdOneMore(rows: seq<StoredMatrix>, r: StoredMatrix)
    ensures RowsById(rows + [r]) == RowsById(rows)[r.row.chunk.id := r.row]
  {
    assert (rows + [r])[..|rows|] == rows;
  }

  // The rows of one shard against what the manifest expects and what is already loaded.
  method LoadRows(ar: Arith, cfg: IndexConfig, ghost chunks: seq<Chunk>, expected: map<Text, Chunk>,
          ghost before: seq<StoredMatrix>, loaded: map<Text, MatrixRow>, rows: seq<StoredMatrix>, ids: seq<Text>)
    returns (ok: bool, all: map<Text, MatrixRow>)
    requires Expects(expected, chunks) && loaded == RowsById(before) && DistinctIds(before) && |rows| == |ids|
    ensures ok <==> MatricesFit(ar, cfg, chunks, rows, ids) && DistinctIds(before + rows)
    ensures ok ==> all == RowsById(before + rows)
  {
    hide RowsById, ValidMatrix, DistinctIds;
    all := loaded;
    assert before + rows[..0] == before;
    for i := 0 to |rows|
      invariant forall k :: 0 <= k < i ==> MatrixFits(ar, cfg, chunks, rows[k], ids[k])
      invariant DistinctIds(before + rows[..i]) && all == RowsById(before + rows[..i])
    {
      NextRow(before, rows, i);
      if !CheckMatrix(cfg, expected, rows[i], ids[i]) || rows[i].row.chunk.id in all {
        return false, all;
      }
      var valid := ValidateMatrix(ar, rows[i].row.matrix, cfg.contract);
      if !valid {
        return false, all;
      }
      all := all[rows[i].row.chunk.id := rows[i].row];
    }
    assert rows[..|rows|] == rows;
    ok := true;
  }

  // Looks the listed token rows up in the loaded matrices.
  method LookUp(listed: seq<TokenRow>, rows: map<Text, MatrixRow>) returns (added: seq<IndexedToken>)
    requires forall t :: t in listed ==> IsValidRow(MatricesOf(rows), t.chunkId, t.position)
    ensures Looked(added, listed, MatricesOf(rows))
  {
    added := [];
    for i := 0 to |listed|
      invariant |added| == i && Looked(added, listed[..i], MatricesOf(rows))
    {
      assert listed[i] in listed;
      added := added
          + [IndexedToken(listed[i].chunkId, listed[i].position,
                          rows[listed[i].chunkId].matrix.values[listed[i].position])];
    }
    assert listed[..|listed|] == listed;
  }

  lemma {:induction false} ListedAreValid(ar: Arith, cfg: IndexConfig, m: ChunkManifest, before: seq<StoredMatrix>,
          rows: seq<StoredMatrix>, ids: seq<Text>)
    requires DistinctIds(before + rows) && AllValid(ar, cfg.contract, before)
             && MatricesFit(ar, cfg, m.chunks, rows, ids)
    ensures AllValid(ar, cfg.contract, rows) && AllValid(ar, cfg.contract, before + rows)
    ensures forall t :: t in TokenRowsOf(rows) ==>
              IsValidRow(MatricesOf(RowsById(before + rows)), t.chunkId, t.position)
  {
    assert forall i :: 0 <= i < |rows| ==> MatrixFits(ar, cfg, m.chunks, rows[i], ids[i]);
    TokenRowsSay(rows);
    forall t | t in TokenRowsOf(rows) ensures IsValidRow(MatricesOf(RowsById(before + rows)), t.chunkId, t.position) {
      ActiveJoin(before, rows, t.chunkId, t.position);
      ActiveIsValid(ar, cfg.contract, before + rows, t.chunkId, t.position);
    }
  }

  // One loaded shard against the manifest and the rows before it.
  method LoadPart(ar: Arith, cfg: IndexConfig, idx: LaneIndex, m: ChunkManifest, expected: map<Text, Chunk>,
          ghost before: seq<StoredMatrix>, part: MatrixShard, ids: seq<Text>, rows: map<Text, MatrixRow>,
          tokens: seq<IndexedToken>)
    returns (ok: bool, rows': map<Text, MatrixRow>, tokens': seq<IndexedToken>)
    requires Expects(expected, m.chunks) && Loaded(ar, cfg.contract, before, rows, tokens)
    ensures ok <==> ShardFits(ar, cfg, idx, m, part, ids) && DistinctIds(before + part.rows)
    ensures ok ==> Loaded(ar, cfg.contract, before + part.rows, rows', tokens')
  {
    ok, rows', tokens' := false, rows, tokens;
    if part.schemaVersion != 1 || part.header != idx.header || part.moduleId != m.moduleId
       || part.releaseId != m.releaseId
       || part.binding != cfg.binding || |part.rows| != |ids| || !SoundUsage(part.usage) || ids == [] {
      return;
    }
    var listed := TokenRows(part.rows);
    if part.tokenRows != listed {
      return;
    }
    ok, rows' := LoadRows(ar, cfg, m.chunks, expected, before, rows, part.rows, ids);
    if ok {
      ListedAreValid(ar, cfg, m, before, part.rows, ids);
      var added := LookUp(part.tokenRows, rows');
      TokensGrow(ar, cfg.contract, before, rows, tokens, part.rows, added);
      tokens' := tokens + added;
    }
  }

  lemma {:induction false} RowsPrefix(stored: Shards, shards: seq<IndexShard>, n: nat)
    requires n <= |shards|
    ensures AllRows(stored, shards[..n]) <= AllRows(stored, shards)
  {
    if n == |shards| {
      assert shards[..n] == shards;
    } else {
      var init := shards[..|shards| - 1];
      RowsPrefix(stored, init, n);
      assert init[..n] == shards[..n];
    }
  }

  // Every front of fitting shards fits.
  lemma {:induction false} FrontOfFront(ar: Arith, cfg: IndexConfig, stored: Shards, idx: LaneIndex, m: ChunkManifest,
          shards: seq<IndexShard>, n: nat)
    requires FrontFits(ar, cfg, stored, idx, m, shards) && n <= |shards|
    ensures FrontFits(ar, cfg, stored, idx, m, shards[..n])
  {
    RowsPrefix(stored, shards, n);
    var front, all := AllRows(stored, shards[..n]), AllRows(stored, shards);
    forall i | 0 <= i < |front| ensures front[i] == all[i] {
    }
  }

  // A shard fits behind others if it is stored, new, fits, and repeats no chunk.
  lemma {:induction false} FrontOneMore(ar: Arith, cfg: IndexConfig, stored: Shards, idx: LaneIndex, m: ChunkManifest,
          shards: seq<IndexShard>, next: IndexShard)
    requires FrontFits(ar, cfg, stored, idx, m, shards)
    ensures FrontFits(ar, cfg, stored, idx, m, shards + [next]) <==>
              next.artifact in stored && (forall k :: 0 <= k < |shards| ==> shards[k].artifact != next.artifact)
              && ShardFits(ar, cfg, idx, m, stored[next.artifact], next.chunkIds)
              && DistinctIds(AllRows(stored, shards) + stored[next.artifact].rows)
    ensures next.artifact in stored ==>
              AllRows(stored, shards + [next]) == AllRows(stored, shards) + stored[next.artifact].rows
  {
    hide ShardFits, DistinctIds;
    var more := shards + [next];
    assert more[..|more| - 1] == shards && more[|shards|] == next;
    assert forall k :: 0 <= k < |shards| ==> more[k] == shards[k];
  }

  lemma {:induction false} NothingLoaded(ar: Arith, cfg: IndexConfig, stored: Shards, idx: LaneIndex, m: ChunkManifest)
    ensures FrontFits(ar, cfg, stored, idx, m, []) && Loaded(ar, cfg.contract, AllRows(stored, []), map[], [])
  {
  }

  // One declared shard: found in the store, checked, its rows and tokens added.
  method LoadShard(ar: Arith, cfg: IndexConfig, stored: Shards, idx: LaneIndex, m: ChunkManifest,
          expected: map<Text, Chunk>, n: nat, rows: map<Text, MatrixRow>, tokens: seq<IndexedToken>)
    returns (ok: bool, rows': map<Text, MatrixRow>, tokens': seq<IndexedToken>)
    requires n < |idx.shards| && Expects(expected, m.chunks) && FrontFits(ar, cfg, stored, idx, m, idx.shards[..n])
    requires Loaded(ar, cfg.contract, AllRows(stored, idx.shards[..n]), rows, tokens)
    ensures ok <==> FrontFits(ar, cfg, stored, idx, m, idx.shards[..n + 1])
    ensures ok ==> Loaded(ar, cfg.contract, AllRows(stored, idx.shards[..n + 1]), rows', tokens')
  {
    hide FrontFits, Loaded, ShardFits, AllRows, DistinctIds, Expects;
    rows', tokens' := rows, tokens;
    var declared := idx.shards[n];
    assert idx.shards[..n + 1] == idx.shards[..n] + [declared];
    FrontOneMore(ar, cfg, stored, idx, m, idx.shards[..n], declared);
    ok := declared.artifact in stored && forall k :: 0 <= k < n ==> idx.shards[k].artifact != declared.artifact;
    if ok {
      ok, rows', tokens' := LoadPart(ar, cfg, idx, m, expected, AllRows(stored, idx.shards[..n]),
                                     stored[declared.artifact],
                                     declared.chunkIds, rows, tokens);
    }
  }

  // Opening succeeds exactly on acceptable indexes. The snapshot then holds the rows of all
  // shards by chunk, and lists their valid token rows.
  method Open(ar: Arith, cfg: IndexConfig, stored: Shards, ref: Ref, idx: LaneIndex, m: ChunkManifest)
    returns (r: Option<TokenSnapshot>)
    requires cfg.contract.dimensions >= 1
    ensures r.Some? <==> Accepts(ar, cfg, stored, idx, m)
    ensures r.Some? ==> Opened(ar, cfg.contract, r.value) && r.value.rows == RowsById(AllRows(stored, idx.shards))
                        && r.value.ref == ref && r.value.moduleId == m.moduleId && r.value.releaseId == m.releaseId
                        && r.value.generation == idx.header.generation
  {
    hide FrontFits, Loaded, AllRows, IndexFits, ValidMatrix;
    var ok := ValidateManifest(m);
    if !ok || !IndexFits(cfg, idx, m) {
      return None;
    }
    var expected := Expected(m.chunks);
    NothingLoaded(ar, cfg, stored, idx, m);
    var rows: map<Text, MatrixRow>, tokens: seq<IndexedToken> := map[], [];
    for n := 0 to |idx.shards|
      invariant FrontFits(ar, cfg, stored, idx, m, idx.shards[..n])
      invariant Loaded(ar, cfg.contract, AllRows(stored, idx.shards[..n]), rows, tokens)
    {
      ok, rows, tokens := LoadShard(ar, cfg, stored, idx, m, expected, n, rows, tokens);
      if !ok {
        if FrontFits(ar, cfg, stored, idx, m, idx.shards) {
          FrontOfFront(ar, cfg, stored, idx, m, idx.shards, n + 1);
        }
        return None;
      }
    }
    assert idx.shards[..|idx.shards|] == idx.shards;
    var all := AllRows(stored, idx.shards);
    LoadedIsOpened(ar, cfg, m, all, rows, tokens);
    if |rows| != |expected| || tokens == [] {
      return None;
    }
    return Some(TokenSnapshot(ref, m.moduleId, m.releaseId, idx.header.generation, rows, tokens));
  }

  // Loaded rows make a snapshot that can be searched; where there is a chunk there is a token.
  lemma {:induction false} LoadedIsOpened(ar: Arith, cfg: IndexConfig, m: ChunkManifest, all: seq<StoredMatrix>,
          rows: map<Text, MatrixRow>, tokens: seq<IndexedToken>)
    requires Loaded(ar, cfg.contract, all, rows, tokens)
    ensures |rows| == |all| && rows == RowsById(all) && (all != [] ==> tokens != [])
            && TokensOf(tokens, MatricesOf(rows))
    ensures forall id :: id in rows ==> rows[id].chunk.id == id && ValidMatrix(ar, rows[id].matrix, cfg.contract)
  {
    RowsByIdSay(all);
    if all != [] {
      var v := all[0].row.matrix;
      var p :| 0 <= p < |v.mask| && v.mask[p];
      assert IsValidRow(MatricesOf(rows), all[0].row.chunk.id, p);
      assert HasRow(tokens, all[0].row.chunk.id, p);
    }
  }

  // An acceptable index has exactly one row for each chunk of its manifest.
  lemma {:induction false} EveryChunkHasItsRow(ar: Arith, cfg: IndexConfig, stored: Shards, idx: LaneIndex,
          m: ChunkManifest, c: Chunk)
    requires Accepts(ar, cfg, stored, idx, m) && c in m.chunks
    ensures c.id in RowsById(AllRows(stored, idx.shards)) && RowsById(AllRows(stored, idx.shards))[c.id].chunk == c
  {
    hide RowsById, AllRows, ShardFits, Stored;
    var all := AllRows(stored, idx.shards);
    var ids := seq(|all|, i requires 0 <= i < |all| => all[i].row.chunk.id);
    forall i | 0 <= i < |all| ensures all[i].row.chunk in m.chunks {
      RowIsAChunk(ar, cfg, stored, idx, m, idx.shards, i);
    }
    EveryChunkListed(m.chunks, ids, c);
    var k :| 0 <= k < |ids| && ids[k] == c.id;
    RowsByIdSay(all);
    SameIdSameChunk(m.chunks, all[k].row.chunk, c);
  }

  lemma {:induction false} RowIsAChunk(ar: Arith, cfg: IndexConfig, stored: Shards, idx: LaneIndex, m: ChunkManifest,
          shards: seq<IndexShard>, i: nat)
    requires FrontFits(ar, cfg, stored, idx, m, shards) && i < |AllRows(stored, shards)|
    ensures AllRows(stored, shards)[i].row.chunk in m.chunks
  {
    hide ValidMatrix, DistinctIds, TokenRowsOf;
    var last := shards[|shards| - 1];
    var before := AllRows(stored, shards[..|shards| - 1]);
    if i < |before| {
      FrontOfFront(ar, cfg, stored, idx, m, shards, |shards| - 1);
      RowIsAChunk(ar, cfg, stored, idx, m, shards[..|shards| - 1], i);
    } else {
      var part := stored[last.artifact];
      assert ShardFits(ar, cfg, idx, m, part, last.chunkIds);
      assert MatrixFits(ar, cfg, m.chunks, part.rows[i - |before|], last.chunkIds[i - |before|]);
    }
  }
}
