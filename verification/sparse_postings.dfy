// Posting lists of a set of rows: built token by token, sorted, and stored in the shard.
module SparsePostings {
  import opened Basics
  import opened Bytes
  import opened Corpus
  import opened Sorting
  import opened SparseVectors
  import opened SparseSearch

  datatype Row = Row(chunk: Chunk, vector: SparseValues, vectorHash: string)

  datatype Posting = Posting(tokenId: int, entries: seq<Entry>)

  predicate DistinctIds(rows: seq<Row>) {
    forall i, j :: 0 <= i < j < |rows| ==> rows[i].chunk.id != rows[j].chunk.id
  }

  predicate RowsOrdered(rows: seq<Row>) {
    forall i :: 0 <= i < |rows| ==> Ordered(rows[i].vector) && rows[i].vector.indices != []
  }

  // The entries of one token, in row order.
  function EntriesOf(rows: seq<Row>, token: int): seq<Entry>
    requires RowsOrdered(rows)
  {
    if rows == [] then []
    else
      var r := rows[|rows| - 1];
      var w := WeightAt(r.vector, token);
      EntriesOf(rows[..|rows| - 1], token) + (if w.Some? then [Entry(r.chunk.id, w.value)] else [])
  }

  predicate EntryBefore(a: Entry, b: Entry) {
    Less(a.chunkId, b.chunkId) || (a.chunkId == b.chunkId && a.weight < b.weight)
  }

  lemma {:induction false} EntryBeforeIsStrictTotalOrder()
    ensures StrictTotalOrder(EntryBefore)
  {
    forall a ensures !EntryBefore(a, a) {
      LessIrreflexive(a.chunkId);
    }
    forall a, b, c | EntryBefore(a, b) && EntryBefore(b, c) ensures EntryBefore(a, c) {
      if Less(a.chunkId, b.chunkId) && Less(b.chunkId, c.chunkId) {
        LessTransitive(a.chunkId, b.chunkId, c.chunkId);
      }
    }
    forall a, b ensures a == b || EntryBefore(a, b) || EntryBefore(b, a) {
      LessTotal(a.chunkId, b.chunkId);
    }
  }

  predicate Smaller(a: int, b: int) {
    a < b
  }

  function SortEntries(entries: seq<Entry>): seq<Entry> {
    Sort(EntryBefore, entries)
  }

  // Token lists in increasing token order, one for each token that occurs.
  ghost predicate ArePostings(rows: seq<Row>, ps: seq<Posting>)
    requires RowsOrdered(rows)
  {
    (forall i, j :: 0 <= i < j < |ps| ==> ps[i].tokenId < ps[j].tokenId)
    && (forall i :: 0 <= i < |ps| ==>
          EntriesOf(rows, ps[i].tokenId) != [] && ps[i].entries == SortEntries(EntriesOf(rows, ps[i].tokenId)))
    && (forall token :: EntriesOf(rows, token) != [] ==> HasToken(ps, token))
  }

  ghost predicate HasToken(ps: seq<Posting>, token: int) {
    exists i :: 0 <= i < |ps| && ps[i].tokenId == token
  }

  function Tokens(ps: seq<Posting>): seq<int> {
    seq(|ps|, i requires 0 <= i < |ps| => ps[i].tokenId)
  }

  // The tokens of the lists are those of the rows.
  lemma {:induction false} TokenListed(rows: seq<Row>, ps: seq<Posting>, t: int)
    requires RowsOrdered(rows) && ArePostings(rows, ps)
    ensures t in Tokens(ps) <==> EntriesOf(rows, t) != []
  {
    hide EntriesOf;
    if t in Tokens(ps) {
      var i :| 0 <= i < |ps| && Tokens(ps)[i] == t;
      assert EntriesOf(rows, ps[i].tokenId) != [];
    }
    if EntriesOf(rows, t) != [] {
      assert HasToken(ps, t);
      var i :| 0 <= i < |ps| && ps[i].tokenId == t;
      assert Tokens(ps)[i] == t;
    }
  }

  // Rows determine their posting lists.
  lemma {:induction false} PostingsUnique(rows: seq<Row>, a: seq<Posting>, b: seq<Posting>)
    requires RowsOrdered(rows) && ArePostings(rows, a) && ArePostings(rows, b)
    ensures a == b
  {
    hide EntriesOf, HasToken;
    forall t ensures t in Tokens(a) <==> t in Tokens(b) {
      TokenListed(rows, a, t);
      TokenListed(rows, b, t);
    }
    assert Elements(Tokens(a)) == Elements(Tokens(b));
    RankingUnique(Smaller, Tokens(a), Tokens(b));
    forall i | 0 <= i < |a| ensures a[i] == b[i] {
      assert a[i].tokenId == Tokens(a)[i] == Tokens(b)[i] == b[i].tokenId;
    }
  }

  // Some row has this token with this weight.
  ghost predicate Says(rows: seq<Row>, token: int, e: Entry)
    requires RowsOrdered(rows)
  {
    exists i :: 0 <= i < |rows| && RowSays(rows[i], token, e)
  }

  predicate RowSays(r: Row, token: int, e: Entry)
    requires Ordered(r.vector)
  {
    r.chunk.id == e.chunkId && WeightAt(r.vector, token) == Some(e.weight)
  }

  lemma {:induction false} EntriesSay(rows: seq<Row>, token: int, e: Entry)
    requires RowsOrdered(rows)
    ensures e in EntriesOf(rows, token) <==> Says(rows, token, e)
  {
    if rows != [] {
      var rest, last := rows[..|rows| - 1], rows[|rows| - 1];
      EntriesSay(rest, token, e);
      assert Says(rows, token, e) <==> Says(rest, token, e) || RowSays(last, token, e) by {
        if Says(rest, token, e) {
          var i :| 0 <= i < |rest| && RowSays(rest[i], token, e);
          assert RowSays(rows[i], token, e);
        }
        if RowSays(last, token, e) {
          assert RowSays(rows[|rows| - 1], token, e);
        }
      }
    }
  }

  predicate OnePerChunk(es: seq<Entry>) {
    forall i, j :: 0 <= i < j < |es| ==> es[i].chunkId != es[j].chunkId
  }

  lemma {:induction false} EntriesDistinct(rows: seq<Row>, token: int)
    requires RowsOrdered(rows) && DistinctIds(rows)
    ensures OnePerChunk(EntriesOf(rows, token))
  {
    if rows != [] {
      var rest := rows[..|rows| - 1];
      EntriesDistinct(rest, token);
      var es := EntriesOf(rest, token);
      forall i | 0 <= i < |es| ensures es[i].chunkId != rows[|rows| - 1].chunk.id {
        EntriesSay(rest, token, es[i]);
      }
    }
  }

  ghost function VectorsOf(rows: seq<Row>): Vectors {
    if rows == [] then map[]
    else VectorsOf(rows[..|rows| - 1])[rows[|rows| - 1].chunk.id := rows[|rows| - 1].vector]
  }

  ghost predicate HasId(rows: seq<Row>, id: Text) {
    exists i :: 0 <= i < |rows| && rows[i].chunk.id == id
  }

  lemma {:induction false} HasIdSplits(rows: seq<Row>, id: Text)
    requires rows != []
    ensures HasId(rows, id) <==> HasId(rows[..|rows| - 1], id) || rows[|rows| - 1].chunk.id == id
  {
    var rest := rows[..|rows| - 1];
    if i :| 0 <= i < |rest| && rest[i].chunk.id == id {
      assert rows[i].chunk.id == id;
    }
  }

  lemma {:induction false} VectorsHave(rows: seq<Row>, id: Text)
    ensures id in VectorsOf(rows) <==> HasId(rows, id)
  {
    if rows != [] {
      VectorsHave(rows[..|rows| - 1], id);
      HasIdSplits(rows, id);
    }
  }

  lemma {:induction false} VectorAt(rows: seq<Row>, i: nat)
    requires DistinctIds(rows) && i < |rows|
    ensures rows[i].chunk.id in VectorsOf(rows) && VectorsOf(rows)[rows[i].chunk.id] == rows[i].vector
  {
    if i < |rows| - 1 {
      VectorAt(rows[..|rows| - 1], i);
    }
  }

  lemma {:induction false} VectorsAreOrdered(rows: seq<Row>)
    requires RowsOrdered(rows)
    ensures AllOrdered(VectorsOf(rows))
  {
    if rows != [] {
      VectorsAreOrdered(rows[..|rows| - 1]);
    }
  }

  lemma {:induction false} VectorsSay(rows: seq<Row>)
    ensures forall id :: id in VectorsOf(rows) <==> HasId(rows, id)
    ensures DistinctIds(rows) ==> forall i :: 0 <= i < |rows| ==>
              rows[i].chunk.id in VectorsOf(rows) && VectorsOf(rows)[rows[i].chunk.id] == rows[i].vector
    ensures RowsOrdered(rows) ==> AllOrdered(VectorsOf(rows))
  {
    forall id ensures id in VectorsOf(rows) <==> HasId(rows, id) {
      VectorsHave(rows, id);
    }
    if DistinctIds(rows) {
      forall i | 0 <= i < |rows|
        ensures rows[i].chunk.id in VectorsOf(rows) && VectorsOf(rows)[rows[i].chunk.id] == rows[i].vector
      {
        VectorAt(rows, i);
      }
    }
    if RowsOrdered(rows) {
      VectorsAreOrdered(rows);
    }
  }

  // Sorting the entries of one token keeps them, one per chunk.
  lemma {:induction false} SortEntriesKeeps(es: seq<Entry>)
    requires OnePerChunk(es)
    ensures OnePerChunk(SortEntries(es)) && forall e :: e in SortEntries(es) <==> e in es
  {
    var sorted := SortEntries(es);
    assert Distinct(es);
    EntryBeforeIsStrictTotalOrder();
    SortRanks(EntryBefore, es);
    forall e ensures e in sorted <==> e in es {
      assert e in Elements(sorted) <==> e in Elements(es);
    }
    forall i, j | 0 <= i < j < |sorted| ensures sorted[i].chunkId != sorted[j].chunkId {
      assert EntryBefore(sorted[i], sorted[j]);
      assert sorted[i] in es && sorted[j] in es;
      LessIrreflexive(sorted[i].chunkId);
    }
  }

  // A token's sorted entries invert the vectors of the rows.
  lemma {:induction false} EntriesInvert(rows: seq<Row>, token: int)
    requires RowsOrdered(rows) && DistinctIds(rows)
    ensures AllOrdered(VectorsOf(rows))
    ensures InvertsToken(SortEntries(EntriesOf(rows, token)), token, VectorsOf(rows))
  {
    VectorsSay(rows);
    var es := EntriesOf(rows, token);
    var sorted := SortEntries(es);
    var vectors := VectorsOf(rows);
    EntriesDistinct(rows, token);
    SortEntriesKeeps(es);
    forall i | 0 <= i < |sorted|
      ensures sorted[i].chunkId in vectors && WeightAt(vectors[sorted[i].chunkId], token) == Some(sorted[i].weight)
    {
      assert sorted[i] in es;
      EntriesSay(rows, token, sorted[i]);
    }
    forall id | id in vectors && token in vectors[id].indices ensures id in Seen(sorted, |sorted|) {
      EntryOfRow(rows, token, id);
    }
  }

  lemma {:induction false} EntryOfRow(rows: seq<Row>, token: int, id: Text)
    requires RowsOrdered(rows) && DistinctIds(rows)
    requires id in VectorsOf(rows) && token in VectorsOf(rows)[id].indices
    requires forall e :: e in SortEntries(EntriesOf(rows, token)) <==> e in EntriesOf(rows, token)
    ensures var sorted := SortEntries(EntriesOf(rows, token)); id in Seen(sorted, |sorted|)
  {
    VectorsSay(rows);
    var i :| 0 <= i < |rows| && rows[i].chunk.id == id;
    var s :| 0 <= s < |rows[i].vector.indices| && rows[i].vector.indices[s] == token;
    WeightIsUnique(rows[i].vector, s);
    var e := Entry(id, rows[i].vector.weights[s]);
    assert RowSays(rows[i], token, e);
    EntriesSay(rows, token, e);
    assert e in SortEntries(EntriesOf(rows, token));
  }

  // The list of one token once the first n tokens of row r are added to the lists.
  function Extended(before: PostingLists, r: Row, n: nat, token: int): seq<Entry>
    requires n <= |r.vector.indices| == |r.vector.weights|
  {
    var w := WeightIn(r.vector, token, n);
    ListOf(before, token) + (if w.Some? then [Entry(r.chunk.id, w.value)] else [])
  }

  function WithEntry(byToken: PostingLists, r: Row, i: nat): PostingLists
    requires i < |r.vector.indices| == |r.vector.weights|
  {
    var token := r.vector.indices[i];
    byToken[token := ListOf(byToken, token) + [Entry(r.chunk.id, r.vector.weights[i])]]
  }

  lemma {:induction false} ExtendedOneMore(before: PostingLists, byToken: PostingLists, r: Row, i: nat, t: int)
    requires Ordered(r.vector) && i < |r.vector.indices| && ListOf(byToken, t) == Extended(before, r, i, t)
    ensures ListOf(WithEntry(byToken, r, i), t) == Extended(before, r, i + 1, t)
  {
    if t == r.vector.indices[i] {
      NotBefore(r.vector, i, i);
    }
  }

  lemma {:induction false} NotBefore(v: SparseValues, i: nat, n: nat)
    requires Ordered(v) && n <= i < |v.indices|
    ensures WeightIn(v, v.indices[i], n).None?
  {
    if n > 0 {
      NotBefore(v, i, n - 1);
    }
  }

  // The lists once the first n tokens of row r are added; none of them is empty.
  ghost predicate ExtendedTo(byToken: PostingLists, before: PostingLists, r: Row, n: nat)
    requires n <= |r.vector.indices| == |r.vector.weights|
  {
    (forall t :: t in byToken ==> byToken[t] != []) && forall t :: ListOf(byToken, t) == Extended(before, r, n, t)
  }

  lemma {:induction false} NothingExtended(before: PostingLists, r: Row)
    requires |r.vector.indices| == |r.vector.weights|
    requires forall t :: t in before ==> before[t] != []
    ensures ExtendedTo(before, before, r, 0)
  {
  }

  lemma {:induction false} ExtendedByOne(byToken: PostingLists, before: PostingLists, r: Row, i: nat)
    requires Ordered(r.vector) && i < |r.vector.indices| && ExtendedTo(byToken, before, r, i)
    ensures ExtendedTo(WithEntry(byToken, r, i), before, r, i + 1)
  {
    forall t ensures ListOf(WithEntry(byToken, r, i), t) == Extended(before, r, i + 1, t) {
      ExtendedOneMore(before, byToken, r, i, t);
    }
  }

  method AddRow(r: Row, before: PostingLists) returns (byToken: PostingLists)
    requires Ordered(r.vector)
    requires forall t :: t in before ==> before[t] != []
    ensures ExtendedTo(byToken, before, r, |r.vector.indices|)
  {
    hide ExtendedTo, WithEntry;
    NothingExtended(before, r);
    byToken := before;
    for i := 0 to |r.vector.indices|
      invariant ExtendedTo(byToken, before, r, i)
    {
      ExtendedByOne(byToken, before, r, i);
      byToken := WithEntry(byToken, r, i);
    }
  }

  // Collecting entries per token.
  method Collect(rows: seq<Row>) returns (byToken: PostingLists)
    requires RowsOrdered(rows)
    ensures forall t :: t in byToken ==> byToken[t] != []
    ensures forall t :: ListOf(byToken, t) == EntriesOf(rows, t)
  {
    byToken := map[];
    for n := 0 to |rows|
      invariant forall t :: t in byToken ==> byToken[t] != []
      invariant forall t :: ListOf(byToken, t) == EntriesOf(rows[..n], t)
    {
      ghost var before := byToken;
      byToken := AddRow(rows[n], byToken);
      forall t ensures ListOf(byToken, t) == EntriesOf(rows[..n + 1], t) {
        assert rows[..n + 1][..n] == rows[..n];
        assert ListOf(byToken, t) == Extended(before, rows[n], |rows[n].vector.indices|, t);
        assert ListOf(before, t) == EntriesOf(rows[..n], t);
      }
    }
    assert rows[..|rows|] == rows;
  }

  // The posting lists of a shard: tokens in order, each list sorted.
  method Postings(rows: seq<Row>) returns (result: seq<Posting>)
    requires RowsOrdered(rows)
    ensures ArePostings(rows, result)
  {
    var byToken := Collect(rows);
    var ids := SortedKeys(byToken);
    result := ListTokens(byToken, ids);
    ListedTokens(rows, byToken, ids, result);
  }

  method ListTokens(byToken: PostingLists, ids: seq<int>) returns (result: seq<Posting>)
    ensures |result| == |ids|
    ensures forall k :: 0 <= k < |ids| ==> result[k] == Posting(ids[k], SortEntries(ListOf(byToken, ids[k])))
  {
    result := [];
    for i := 0 to |ids|
      invariant |result| == i
      invariant forall k :: 0 <= k < i ==> result[k] == Posting(ids[k], SortEntries(ListOf(byToken, ids[k])))
    {
      result := result + [Posting(ids[i], SortEntries(ListOf(byToken, ids[i])))];
    }
  }

  lemma {:induction false} ListedTokens(rows: seq<Row>, byToken: PostingLists, ids: seq<int>, result: seq<Posting>)
    requires RowsOrdered(rows) && |result| == |ids| && Ranked(Smaller, ids)
    requires forall t :: t in ids <==> t in byToken
    requires forall t :: t in byToken ==> byToken[t] != []
    requires forall t :: ListOf(byToken, t) == EntriesOf(rows, t)
    requires forall k :: 0 <= k < |ids| ==> result[k] == Posting(ids[k], SortEntries(ListOf(byToken, ids[k])))
    ensures ArePostings(rows, result)
  {
    forall i, j | 0 <= i < j < |result| ensures result[i].tokenId < result[j].tokenId {
      assert Smaller(ids[i], ids[j]);
    }
    forall t | EntriesOf(rows, t) != [] ensures HasToken(result, t) {
      assert ListOf(byToken, t) == EntriesOf(rows, t);
      assert t in ids;
      var k :| 0 <= k < |ids| && ids[k] == t;
      assert result[k].tokenId == t;
    }
    forall k | 0 <= k < |ids|
      ensures EntriesOf(rows, ids[k]) != [] && result[k].entries == SortEntries(EntriesOf(rows, ids[k]))
    {
      assert ids[k] in ids && ids[k] in byToken;
      assert ListOf(byToken, ids[k]) == EntriesOf(rows, ids[k]);
    }
  }

  method SortedKeys(m: map<int, seq<Entry>>) returns (ids: seq<int>)
    ensures Ranked(Smaller, ids) && forall t :: t in ids <==> t in m
  {
    var keys := Listing(m.Keys);
    SortRanks(Smaller, keys);
    ids := Sort(Smaller, keys);
    forall t ensures t in ids <==> t in m {
      assert t in Elements(ids) <==> t in Elements(keys);
    }
  }
}
