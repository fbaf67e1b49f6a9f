// The inverted sparse lane: posting-list accumulation against the exact inner product.
module SparseSearch {
  import opened Basics
  import opened Bytes
  import opened Sorting
  import opened Ranking
  import opened SparseVectors

  datatype Entry = Entry(chunkId: Text, weight: real)

  type Vectors = map<Text, SparseValues>

  type PostingLists = map<int, seq<Entry>>

  ghost predicate AllOrdered(vectors: Vectors) {
    forall id :: id in vectors ==> Ordered(vectors[id]) && vectors[id].indices != []
  }

  function ListOf(lists: PostingLists, token: int): seq<Entry> {
    if token in lists then lists[token] else []
  }

  ghost function Seen(list: seq<Entry>, n: nat): set<Text>
    requires n <= |list|
  {
    set i | 0 <= i < n :: list[i].chunkId
  }

  // The list of one token names each chunk whose vector has it, once, with its weight.
  ghost predicate InvertsToken(list: seq<Entry>, token: int, vectors: Vectors)
    requires AllOrdered(vectors)
  {
    (forall i :: 0 <= i < |list| ==>
       list[i].chunkId in vectors && WeightAt(vectors[list[i].chunkId], token) == Some(list[i].weight))
    && (forall i, j :: 0 <= i < j < |list| ==> list[i].chunkId != list[j].chunkId)
    && (forall id :: id in vectors && token in vectors[id].indices ==> id in Seen(list, |list|))
  }

  ghost predicate Inverts(lists: PostingLists, vectors: Vectors)
    requires AllOrdered(vectors)
  {
    forall token :: InvertsToken(ListOf(lists, token), token, vectors)
  }

  // The allowed chunks with positive exact score.
  ghost function PositiveHits(ar: Arith, q: SparseValues, vectors: Vectors, allowed: set<Text>): set<Hit>
    requires AllOrdered(vectors) && Ordered(q)
  {
    set id | id in vectors && id in allowed && Inner(ar, q, vectors[id]) > 0.0 :: Hit(id, Inner(ar, q, vectors[id]))
  }

  function Lookup(scores: map<Text, real>, id: Text): Option<real> {
    if id in scores then Some(scores[id]) else None
  }

  // The score of v over the first n query tokens: present once one of them is in v.
  ghost predicate ScoredTo(ar: Arith, q: SparseValues, v: SparseValues, score: Option<real>, n: nat)
    requires Ordered(q) && Ordered(v) && n <= |q.indices|
  {
    score == if Meets(q, v, n) then Some(Partial(ar, q, v, n)) else None
  }

  // After the first n query tokens, and one token more for the ids in `done`.
  ghost predicate Accumulated(
    ar: Arith, q: SparseValues, vectors: Vectors, allowed: set<Text>, scores: map<Text, real>, n: nat, done: set<Text>)
    requires AllOrdered(vectors) && Ordered(q) && n <= |q.indices| && (n == |q.indices| ==> done == {})
  {
    (forall id :: id in scores ==> id in vectors && id in allowed)
    && (forall id :: id in vectors && id in allowed ==>
          ScoredTo(ar, q, vectors[id], Lookup(scores, id), if id in done then n + 1 else n))
  }

  // The score map after entry p added token n.
  function Plus(ar: Arith, q: SparseValues, scores: map<Text, real>, p: Entry, n: nat): map<Text, real>
    requires Ordered(q) && n < |q.indices|
  {
    var sum := if p.chunkId in scores then scores[p.chunkId] else 0.0;
    scores[p.chunkId := ar.add(sum, ar.mul(q.weights[n], p.weight))]
  }

  // Adding token n to a chunk that has the sum over the tokens before it.
  lemma {:induction false} AddOnce(ar: Arith, q: SparseValues, v: SparseValues, scores: map<Text, real>, p: Entry,
          n: nat)
    requires Ordered(q) && Ordered(v) && n < |q.indices|
    requires ScoredTo(ar, q, v, Lookup(scores, p.chunkId), n) && WeightAt(v, q.indices[n]) == Some(p.weight)
    ensures ScoredTo(ar, q, v, Some(Plus(ar, q, scores, p, n)[p.chunkId]), n + 1)
  {
    if p.chunkId !in scores {
      NoMeetingIsZero(ar, q, v, n);
    }
    assert v.indices[..|v.indices|] == v.indices;
    assert q.indices[n] in v.indices;
  }

  lemma {:induction false} AddEntry(ar: Arith, q: SparseValues, vectors: Vectors, allowed: set<Text>,
          scores: map<Text, real>, n: nat, p: Entry, done: set<Text>)
    requires AllOrdered(vectors) && Ordered(q) && n < |q.indices|
    requires p.chunkId in vectors && WeightAt(vectors[p.chunkId], q.indices[n]) == Some(p.weight) && p.chunkId !in done
    requires Accumulated(ar, q, vectors, allowed, scores, n, done)
    ensures p.chunkId in allowed ==>
              Accumulated(ar, q, vectors, allowed, Plus(ar, q, scores, p, n), n, done + {p.chunkId})
    ensures p.chunkId !in allowed ==> Accumulated(ar, q, vectors, allowed, scores, n, done + {p.chunkId})
  {
    if p.chunkId in allowed {
      AddOnce(ar, q, vectors[p.chunkId], scores, p, n);
      var scores' := Plus(ar, q, scores, p, n);
      forall id | id in vectors && id in allowed
        ensures ScoredTo(ar, q, vectors[id], Lookup(scores', id), if id in done + {p.chunkId} then n + 1 else n)
      {
        assert ScoredTo(ar, q, vectors[id], Lookup(scores, id), if id in done then n + 1 else n);
        assert id != p.chunkId ==> Lookup(scores', id) == Lookup(scores, id);
      }
    }
  }

  // One posting list adds one query token to exactly the chunks it names.
  method AddToken(ar: Arith, q: SparseValues, ghost vectors: Vectors, list: seq<Entry>, allowed: set<Text>,
                  before: map<Text, real>, n: nat) returns (scores: map<Text, real>)
    requires AllOrdered(vectors) && Ordered(q) && n < |q.indices| && InvertsToken(list, q.indices[n], vectors)
    requires Accumulated(ar, q, vectors, allowed, before, n, {})
    ensures Accumulated(ar, q, vectors, allowed, scores, n + 1, {})
  {
    scores := before;
    assert Seen(list, 0) == {};
    for i := 0 to |list|
      invariant Accumulated(ar, q, vectors, allowed, scores, n, Seen(list, i))
    {
      assert list[i].chunkId !in Seen(list, i);
      assert Seen(list, i + 1) == Seen(list, i) + {list[i].chunkId};
      AddEntry(ar, q, vectors, allowed, scores, n, list[i], Seen(list, i));
      if list[i].chunkId in allowed {
        scores := Plus(ar, q, scores, list[i], n);
      }
    }
    FinishToken(ar, q, vectors, list, allowed, scores, n);
  }

  lemma {:induction false} FinishToken(ar: Arith, q: SparseValues, vectors: Vectors, list: seq<Entry>,
          allowed: set<Text>, scores: map<Text, real>, n: nat)
    requires AllOrdered(vectors) && Ordered(q) && n < |q.indices| && InvertsToken(list, q.indices[n], vectors)
    requires Accumulated(ar, q, vectors, allowed, scores, n, Seen(list, |list|))
    ensures Accumulated(ar, q, vectors, allowed, scores, n + 1, {})
  {
    forall id | id in vectors && id in allowed ensures ScoredTo(ar, q, vectors[id], Lookup(scores, id), n + 1) {
      UntouchedToken(ar, q, vectors, list, id, n);
      assert ScoredTo(ar, q, vectors[id], Lookup(scores, id), if id in Seen(list, |list|) then n + 1 else n);
    }
  }

  // A chunk that the list of token n does not name does not have it.
  lemma {:induction false} UntouchedToken(ar: Arith, q: SparseValues, vectors: Vectors, list: seq<Entry>, id: Text,
          n: nat)
    requires AllOrdered(vectors) && Ordered(q) && n < |q.indices| && InvertsToken(list, q.indices[n], vectors)
    requires id in vectors
    ensures id !in Seen(list, |list|) ==>
              (Meets(q, vectors[id], n + 1) <==> Meets(q, vectors[id], n))
              && Partial(ar, q, vectors[id], n + 1) == Partial(ar, q, vectors[id], n)
  {
    if id !in Seen(list, |list|) {
      PartialStops(ar, q, vectors[id], n, n + 1);
    }
  }

  // The positive scores are the positive exact scores: a chunk the lists never touched has
  // inner product zero.
  lemma {:induction false} PositiveIsExact(ar: Arith, q: SparseValues, vectors: Vectors, allowed: set<Text>,
          scores: map<Text, real>, h: Hit)
    requires AllOrdered(vectors) && Ordered(q) && Accumulated(ar, q, vectors, allowed, scores, |q.indices|, {})
    ensures (h.id in scores && h.score == scores[h.id] && h.score > 0.0) <==> h in PositiveHits(ar, q, vectors, allowed)
  {
    if h.id in vectors && h.id in allowed {
      assert ScoredTo(ar, q, vectors[h.id], Lookup(scores, h.id), |q.indices|);
      if h.id !in scores {
        NoMeetingIsZero(ar, q, vectors[h.id], |q.indices|);
      }
    }
  }

  // Posting-list search returns exactly the k best allowed chunks with positive exact score.
  method Search(ar: Arith, q: SparseValues, ghost vectors: Vectors, lists: PostingLists, allowed: set<Text>, k: nat)
    returns (hits: seq<Hit>)
    requires AllOrdered(vectors) && Ordered(q) && Inverts(lists, vectors)
    ensures IsTop(hits, PositiveHits(ar, q, vectors, allowed), k)
  {
    var scores: map<Text, real> := map[];
    for i := 0 to |q.indices|
      invariant Accumulated(ar, q, vectors, allowed, scores, i, {})
    {
      scores := AddToken(ar, q, vectors, ListOf(lists, q.indices[i]), allowed, scores, i);
    }
    var out := Positive(scores);
    forall h ensures h in Elements(out) <==> h in PositiveHits(ar, q, vectors, allowed) {
      PositiveIsExact(ar, q, vectors, allowed, scores, h);
    }
    SortedTop(out, PositiveHits(ar, q, vectors, allowed), k);
    hits := Top(SortHits(out), k);
  }

  // The positive scores, in whatever order the map gives them.
  method Positive(scores: map<Text, real>) returns (out: seq<Hit>)
    ensures Distinct(out)
    ensures forall h :: h in out <==> h.id in scores && h.score == scores[h.id] && h.score > 0.0
  {
    out := [];
    var left := scores.Keys;
    while left != {}
      invariant left <= scores.Keys && Distinct(out)
      invariant forall h :: h in out <==> h.id in scores && h.id !in left && h.score == scores[h.id] && h.score > 0.0
      decreases |left|
    {
      var id :| id in left;
      if scores[id] > 0.0 {
        out := out + [Hit(id, scores[id])];
      }
      left := left - {id};
    }
  }
}
