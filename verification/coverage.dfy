// Source coverage: a complete producer prefix, the read windows that published it, and the
// slices of its subjects.
module Coverage {
  import opened Basics
  import opened Bytes
  import opened Manifest

  const MAX_OFFSET := 9007199254740991
  const MAX_BATCH := 128

  datatype Subject = Subject(authorityId: Text, tenantId: Text, subjectId: Text)

  // `intact` stands for the formats a row is checked for on its own: its hashes, its time,
  // and an event specification that names this producer and event and hashes to its input hash.
  datatype Row = Row(
    producer: Text, offset: Text, eventId: Text, inputHash: Text, sourceHash: Text, receiptId: Text, subject: Subject,
    spec: Text,
    intact: bool)

  datatype Item = Item(offset: int, inputHash: Text, event: Text)

  datatype Batch = Batch(fromOffset: Text, toOffset: Text, hash: Text)

  // The digest and the two canonical encodings.
  datatype Codec = Codec(digest: Text -> Text, line: Row -> Text, items: seq<Item> -> Text)

  // Lower-case hexadecimal of 32 bytes.
  predicate IsHash(t: Text) {
    |t| == 64 && forall i :: 0 <= i < |t| ==> 48 <= t[i] <= 57 || 97 <= t[i] <= 102
  }

  // Every digest is written as a hash.
  ghost predicate Hashes(c: Codec) {
    forall b :: IsHash(c.digest(b))
  }

  // ---------- offsets ----------

  // A positive offset in canonical decimal.
  function PositiveDecimal(raw: Text): Option<int> {
    var n := ParseNumber(raw);
    if n.Done? && n.rest == [] && 0 < n.value <= MAX_OFFSET && Decimal(n.value) == raw then Some(n.value) else None
  }

  lemma {:induction false} DecimalOfOffset(n: int)
    requires 0 < n <= MAX_OFFSET
    ensures PositiveDecimal(Decimal(n)) == Some(n)
  {
    NumberReads(n, []);
    assert Decimal(n) + [] == Decimal(n);
  }

  // ---------- the index ----------

  predicate ValidSubject(s: Subject) {
    s.authorityId != [] && s.tenantId != [] && s.subjectId != []
  }

  predicate ValidRow(r: Row) {
    r.producer != [] && r.eventId != [] && r.receiptId != [] && ValidSubject(r.subject) && IsHash(r.inputHash)
    && IsHash(r.sourceHash)
    && r.inputHash == r.sourceHash && r.spec != [] && PositiveDecimal(r.offset).Some? && r.intact
  }

  predicate RowAt(producer: Text, r: Row, position: int) {
    PositiveDecimal(r.offset) == Some(position) && r.producer == producer && ValidRow(r)
  }

  // A complete prefix: every offset from 1 on, in order.
  predicate Complete(producer: Text, through: int, rows: seq<Row>) {
    producer != [] && through >= 1 && |rows| == through
    && forall i :: 0 <= i < |rows| ==> RowAt(producer, rows[i], i + 1)
  }

  function Jsonl(c: Codec, rows: seq<Row>): Text {
    if rows == [] then [] else Jsonl(c, rows[..|rows| - 1]) + c.line(rows[|rows| - 1]) + [10]
  }

  // The lines of a text whose every line ends with a newline.
  function EndedLines(t: Text): seq<Text> {
    if t == [] then []
    else
      var rest := EndedLines(t[1..]);
      if t[0] == 10 then [[]] + rest else if rest == [] then [t] else [[t[0]] + rest[0]] + rest[1..]
  }

  lemma {:induction false} LineThenRest(l: Text, t: Text)
    requires 10 !in l
    ensures EndedLines(l + [10] + t) == [l] + EndedLines(t)
  {
    var all := l + [10] + t;
    if l == [] {
      assert all[1..] == t;
    } else {
      LineThenRest(l[1..], t);
      assert all[1..] == l[1..] + [10] + t;
      assert [l[0]] + l[1..] == l;
    }
  }

  // An index reads back as exactly one line for each row, in order, if lines hold no newline.
  lemma {:induction false} JsonlReads(c: Codec, rows: seq<Row>, t: Text)
    requires forall i :: 0 <= i < |rows| ==> 10 !in c.line(rows[i])
    ensures EndedLines(Jsonl(c, rows) + t) == seq(|rows|, i requires 0 <= i < |rows| => c.line(rows[i])) + EndedLines(t)
    decreases |rows|
  {
    if rows == [] {
      NothingAround(t);
    } else {
      var init, last := rows[..|rows| - 1], c.line(rows[|rows| - 1]);
      JsonlReads(c, init, last + [10] + t);
      LineThenRest(last, t);
      assert Jsonl(c, rows) + t == Jsonl(c, init) + (last + [10] + t);
      assert seq(|rows|, i requires 0 <= i < |rows| => c.line(rows[i]))
             == seq(|init|, i requires 0 <= i < |init| => c.line(init[i])) + [last];
    }
  }

  method EventIndexJSONL(c: Codec, producer: Text, through: int, rows: seq<Row>) returns (r: Option<(Text, Text)>)
    ensures r.Some? <==> Complete(producer, through, rows)
    ensures r.Some? ==> r.value == (Jsonl(c, rows), c.digest(Jsonl(c, rows)))
  {
    hide RowAt;
    if producer == [] || through < 1 || |rows| != through {
      return None;
    }
    var out: Text := [];
    for i := 0 to |rows|
      invariant forall k :: 0 <= k < i ==> RowAt(producer, rows[k], k + 1)
      invariant out == Jsonl(c, rows[..i])
    {
      if !RowAt(producer, rows[i], i + 1) {
        return None;
      }
      assert rows[..i + 1][..i] == rows[..i];
      out := out + c.line(rows[i]) + [10];
    }
    assert rows[..|rows|] == rows;
    return Some((out, c.digest(out)));
  }

  // ---------- read windows ----------

  predicate SoundBatch(b: Batch) {
    PositiveDecimal(b.fromOffset).Some? && PositiveDecimal(b.toOffset).Some?
    && PositiveDecimal(b.fromOffset).value <= PositiveDecimal(b.toOffset).value && IsHash(b.hash)
  }

  function From(b: Batch): int
    requires SoundBatch(b)
  {
    PositiveDecimal(b.fromOffset).value
  }

  function To(b: Batch): int
    requires SoundBatch(b)
  {
    PositiveDecimal(b.toOffset).value
  }

  // The offset after windows that follow one another from 1 on.
  function NextOffset(batches: seq<Batch>): Option<int> {
    if batches == [] then Some(1)
    else
      var next, last := NextOffset(batches[..|batches| - 1]), batches[|batches| - 1];
      if next.Some? && SoundBatch(last) && From(last) == next.value then Some(To(last) + 1) else None
  }

  // Consecutive windows over exactly 1 to W.
  predicate Windows(batches: seq<Batch>, through: int) {
    through >= 1 && batches != [] && NextOffset(batches) == Some(through + 1)
  }

  method BatchEvidence(batches: seq<Batch>, through: int) returns (ok: bool)
    ensures ok <==> Windows(batches, through)
  {
    if through < 1 || batches == [] {
      return false;
    }
    var next := 1;
    for i := 0 to |batches|
      invariant NextOffset(batches[..i]) == Some(next)
    {
      assert batches[..i + 1][..i] == batches[..i];
      var b := batches[i];
      if !SoundBatch(b) || From(b) != next {
        NoNextStays(batches, i + 1);
        return false;
      }
      next := To(b) + 1;
    }
    assert batches[..|batches|] == batches;
    ok := next == through + 1;
  }

  lemma {:induction false} NoNextStays(batches: seq<Batch>, n: nat)
    requires n <= |batches| && NextOffset(batches[..n]).None?
    ensures NextOffset(batches).None?
    decreases |batches| - n
  {
    if n < |batches| {
      assert batches[..n + 1][..n] == batches[..n];
      NoNextStays(batches, n + 1);
    } else {
      assert batches[..n] == batches;
    }
  }

  // Accepted windows have accepted fronts.
  lemma {:induction false} FrontFollows(batches: seq<Batch>, n: nat)
    requires NextOffset(batches).Some? && n <= |batches|
    ensures NextOffset(batches[..n]).Some? && 1 <= NextOffset(batches[..n]).value <= NextOffset(batches).value
    decreases |batches|
  {
    if n < |batches| {
      var init := batches[..|batches| - 1];
      FrontFollows(init, n);
      assert init[..n] == batches[..n];
      FromIsPositive(batches[|batches| - 1]);
    } else {
      assert batches[..n] == batches;
      NextIsPositive(batches);
    }
  }

  lemma {:induction false} NextIsPositive(batches: seq<Batch>)
    requires NextOffset(batches).Some?
    ensures NextOffset(batches).value >= 1
  {
  }

  lemma {:induction false} FromIsPositive(b: Batch)
    requires SoundBatch(b)
    ensures 1 <= From(b) <= To(b)
  {
  }

  // Each window starts where the ones before it ended.
  lemma {:induction false} WindowAt(batches: seq<Batch>, i: nat)
    requires NextOffset(batches).Some? && i < |batches|
    ensures SoundBatch(batches[i]) && 1 <= From(batches[i]) <= To(batches[i]) < NextOffset(batches).value
    ensures NextOffset(batches[..i]) == Some(From(batches[i]))
            && NextOffset(batches[..i + 1]) == Some(To(batches[i]) + 1)
  {
    FrontFollows(batches, i + 1);
    assert batches[..i + 1][..i] == batches[..i];
    FromIsPositive(batches[i]);
  }

  // Every offset is in one window, and in no other.
  lemma {:induction false} WindowsCover(batches: seq<Batch>, offset: int)
    requires NextOffset(batches).Some? && 1 <= offset < NextOffset(batches).value
    ensures exists i :: 0 <= i < |batches| && SoundBatch(batches[i]) && From(batches[i]) <= offset <= To(batches[i])
  {
    if batches != [] {
      var init, last := batches[..|batches| - 1], batches[|batches| - 1];
      if offset < From(last) {
        WindowsCover(init, offset);
        var i :| 0 <= i < |init| && SoundBatch(init[i]) && From(init[i]) <= offset <= To(init[i]);
        assert batches[i] == init[i];
      }
    }
  }

  lemma {:induction false} WindowsAreDisjoint(batches: seq<Batch>, i: nat, j: nat)
    requires NextOffset(batches).Some? && i < j < |batches|
    ensures SoundBatch(batches[i]) && SoundBatch(batches[j]) && To(batches[i]) < From(batches[j])
  {
    WindowAt(batches, i);
    WindowAt(batches, j);
    FrontFollows(batches, j);
    FrontFollows(batches[..j], i + 1);
    assert batches[..j][..i + 1] == batches[..i + 1];
  }

  // ---------- batch hashes ----------

  function OffsetOf(r: Row): int {
    var n := PositiveDecimal(r.offset);
    if n.Some? then n.value else 0
  }

  function ItemOf(r: Row): Item {
    Item(OffsetOf(r), r.inputHash, r.spec)
  }

  predicate Hashable(rows: seq<Row>) {
    0 < |rows| <= MAX_BATCH && (forall i :: 0 <= i < |rows| ==> ValidRow(rows[i]))
    && forall i :: 0 < i < |rows| ==> OffsetOf(rows[i]) == OffsetOf(rows[i - 1]) + 1
  }

  function ItemsOf(rows: seq<Row>): seq<Item> {
    seq(|rows|, i requires 0 <= i < |rows| => ItemOf(rows[i]))
  }

  function HashOf(c: Codec, rows: seq<Row>): Text
    requires Hashable(rows)
  {
    c.digest(c.items(ItemsOf(rows)))
  }

  lemma {:induction false} ItemsOneMore(rows: seq<Row>, i: nat)
    requires i < |rows|
    ensures ItemsOf(rows[..i + 1]) == ItemsOf(rows[..i]) + [ItemOf(rows[i])]
  {
    assert rows[..i + 1] == rows[..i] + [rows[i]];
  }

  method BatchHash(c: Codec, rows: seq<Row>) returns (r: Option<Text>)
    ensures r == if Hashable(rows) then Some(HashOf(c, rows)) else None
  {
    hide PositiveDecimal, IsHash, ValidSubject, ParseNumber, Decimal;
    if |rows| == 0 || |rows| > MAX_BATCH {
      return None;
    }
    var items: seq<Item> := [];
    var previous := 0;
    for i := 0 to |rows|
      invariant forall k :: 0 <= k < i ==> ValidRow(rows[k])
      invariant forall k :: 0 < k < i ==> OffsetOf(rows[k]) == OffsetOf(rows[k - 1]) + 1
      invariant i > 0 ==> previous == OffsetOf(rows[i - 1])
      invariant items == ItemsOf(rows[..i])
    {
      var offset := PositiveDecimal(rows[i].offset);
      if offset.None? || !ValidRow(rows[i]) || (i > 0 && offset.value != previous + 1) {
        return None;
      }
      ItemsOneMore(rows, i);
      items := items + [Item(offset.value, rows[i].inputHash, rows[i].spec)];
      previous := offset.value;
    }
    assert rows[..|rows|] == rows;
    return Some(c.digest(c.items(items)));
  }

  // ---------- verification ----------

  // A window's hash is that of exactly its rows.
  predicate BoundTo(c: Codec, full: seq<Row>, b: Batch) {
    SoundBatch(b) && 1 <= From(b) && To(b) <= |full| && Hashable(full[From(b) - 1..To(b)])
    && b.hash == HashOf(c, full[From(b) - 1..To(b)])
  }

  predicate Verified(c: Codec, producer: Text, full: seq<Row>, batches: seq<Batch>) {
    Complete(producer, |full|, full) && Windows(batches, |full|)
    && forall i :: 0 <= i < |batches| ==> BoundTo(c, full, batches[i])
  }

  method VerifyBatchEvidence(c: Codec, producer: Text, full: seq<Row>, batches: seq<Batch>) returns (ok: bool)
    ensures ok <==> Verified(c, producer, full, batches)
  {
    hide PositiveDecimal, Hashable, HashOf, RowAt, SoundBatch;
    var index := EventIndexJSONL(c, producer, |full|, full);
    if index.None? {
      return false;
    }
    ok := BatchEvidence(batches, |full|);
    if !ok {
      return;
    }
    for i := 0 to |batches|
      invariant forall k :: 0 <= k < i ==> BoundTo(c, full, batches[k])
    {
      WindowAt(batches, i);
      var computed := BatchHash(c, full[From(batches[i]) - 1..To(batches[i])]);
      if computed != Some(batches[i].hash) {
        return false;
      }
    }
    ok := true;
  }

  // What a window's hash is taken of.
  function Encoding(c: Codec, full: seq<Row>, b: Batch): Text
    requires SoundBatch(b) && 1 <= From(b) && To(b) <= |full|
  {
    c.items(ItemsOf(full[From(b) - 1..To(b)]))
  }

  // The two indexes do not make the digest, or the encoding of items, collide in this window.
  predicate NoClash(c: Codec, a: seq<Row>, b: seq<Row>, w: Batch)
    requires SoundBatch(w) && 1 <= From(w) && To(w) <= |a| && To(w) <= |b|
  {
    c.digest(Encoding(c, a, w)) == c.digest(Encoding(c, b, w)) ==>
      ItemsOf(a[From(w) - 1..To(w)]) == ItemsOf(b[From(w) - 1..To(w)])
  }

  // Windows of an accepted index are within every index of the same length.
  lemma {:induction false} WindowsFit(batches: seq<Batch>, through: int, k: nat)
    requires Windows(batches, through) && k < |batches|
    ensures SoundBatch(batches[k]) && 1 <= From(batches[k]) <= To(batches[k]) <= through
  {
    WindowAt(batches, k);
  }

  // No window of the evidence collides for these two indexes.
  ghost predicate NoClashes(c: Codec, a: seq<Row>, b: seq<Row>, batches: seq<Batch>)
    requires |a| == |b| && Windows(batches, |a|)
  {
    forall k :: 0 <= k < |batches| ==>
      (WindowsFit(batches, |a|, k); NoClash(c, a, b, batches[k]))
  }

  // Evidence binds the index: of the complete prefixes of a producer, exactly those with the
  // same event at every offset verify against the evidence of one of them, unless the digest
  // collides in a window of just these two.
  lemma {:induction false} EvidenceBindsTheIndex(c: Codec, producer: Text, a: seq<Row>, b: seq<Row>,
          batches: seq<Batch>)
    requires Verified(c, producer, a, batches) && Complete(producer, |b|, b)
    ensures Verified(c, producer, b, batches) ==> |a| == |b|
    ensures |a| == |b| && NoClashes(c, a, b, batches) ==>
              (Verified(c, producer, b, batches) <==> SameItems(a, b))
  {
    if |a| == |b| && NoClashes(c, a, b, batches) {
      if Verified(c, producer, b, batches) {
        forall i | 0 <= i < |a| ensures ItemOf(a[i]) == ItemOf(b[i]) {
          VerifiedItems(c, producer, a, b, batches, i);
        }
      }
      if SameItems(a, b) {
        SameItemsVerify(c, producer, a, b, batches);
      }
    }
  }

  predicate SameItems(a: seq<Row>, b: seq<Row>)
    requires |a| == |b|
  {
    forall i :: 0 <= i < |a| ==> ItemOf(a[i]) == ItemOf(b[i])
  }

  lemma {:induction false} VerifiedItems(c: Codec, producer: Text, a: seq<Row>, b: seq<Row>, batches: seq<Batch>,
          i: nat)
    requires Verified(c, producer, a, batches) && Verified(c, producer, b, batches) && |a| == |b| && i < |a|
    requires NoClashes(c, a, b, batches)
    ensures ItemOf(a[i]) == ItemOf(b[i])
  {
    hide PositiveDecimal, Complete, SoundBatch, Hashable, RowAt, ValidRow, IsHash, NextOffset;
    WindowsCover(batches, i + 1);
    var k :| 0 <= k < |batches| && SoundBatch(batches[k]) && From(batches[k]) <= i + 1 <= To(batches[k]);
    WindowsFit(batches, |a|, k);
    var w := batches[k];
    assert BoundTo(c, a, w) && BoundTo(c, b, w) && NoClash(c, a, b, w);
    ItemAt(a, From(w) - 1, To(w), i);
    ItemAt(b, From(w) - 1, To(w), i);
  }

  // The same events give the same hashes, so evidence of one index is evidence of the other.
  lemma {:induction false} SameItemsVerify(c: Codec, producer: Text, a: seq<Row>, b: seq<Row>, batches: seq<Batch>)
    requires Verified(c, producer, a, batches) && Complete(producer, |b|, b) && |a| == |b| && SameItems(a, b)
    ensures Verified(c, producer, b, batches)
  {
    hide PositiveDecimal, Complete, SoundBatch, RowAt, ValidRow, IsHash, NextOffset;
    forall k | 0 <= k < |batches| ensures BoundTo(c, b, batches[k]) {
      WindowsFit(batches, |a|, k);
      var lo, hi := From(batches[k]) - 1, To(batches[k]);
      assert BoundTo(c, a, batches[k]);
      StretchIsHashable(producer, b, lo, hi);
      assert ItemsOf(a[lo..hi]) == ItemsOf(b[lo..hi]);
    }
  }

  lemma {:induction false} ItemAt(rows: seq<Row>, lo: nat, hi: nat, i: nat)
    requires lo <= i < hi <= |rows|
    ensures ItemsOf(rows[lo..hi])[i - lo] == ItemOf(rows[i])
  {
  }

  // ---------- any windowing of a complete prefix is accepted ----------

  function Sum(sizes: seq<nat>): nat {
    if sizes == [] then 0 else Sum(sizes[..|sizes| - 1]) + sizes[|sizes| - 1]
  }

  predicate GoodSizes(sizes: seq<nat>) {
    forall i :: 0 <= i < |sizes| ==> 0 < sizes[i] <= MAX_BATCH
  }

  lemma {:induction false} StretchIsHashable(producer: Text, full: seq<Row>, lo: nat, hi: nat)
    requires Complete(producer, |full|, full) && lo < hi <= |full| && hi - lo <= MAX_BATCH
    ensures Hashable(full[lo..hi])
  {
    forall i | 0 <= i < hi - lo ensures RowAt(producer, full[lo..hi][i], lo + i + 1) {
      assert full[lo..hi][i] == full[lo + i];
    }
  }

  // The windows of these sizes, with computed hashes.
  function Publish(c: Codec, producer: Text, full: seq<Row>, sizes: seq<nat>): seq<Batch>
    requires Complete(producer, |full|, full) && GoodSizes(sizes) && Sum(sizes) <= |full|
  {
    if sizes == [] then []
    else
      var lo := Sum(sizes[..|sizes| - 1]);
      var hi := lo + sizes[|sizes| - 1];
      StretchIsHashable(producer, full, lo, hi);
      Publish(c, producer, full, sizes[..|sizes| - 1]) + [Batch(Decimal(lo + 1), Decimal(hi), HashOf(c, full[lo..hi]))]
  }

  lemma {:induction false} PublishedBatch(c: Codec, producer: Text, full: seq<Row>, lo: nat, hi: nat)
    requires Hashes(c) && Complete(producer, |full|, full) && lo < hi <= |full| <= MAX_OFFSET && hi - lo <= MAX_BATCH
    ensures Hashable(full[lo..hi])
    ensures var b := Batch(Decimal(lo + 1), Decimal(hi), HashOf(c, full[lo..hi]));
            SoundBatch(b) && From(b) == lo + 1 && To(b) == hi && BoundTo(c, full, b)
  {
    StretchIsHashable(producer, full, lo, hi);
    DecimalOfOffset(lo + 1);
    DecimalOfOffset(hi);
  }

  lemma {:induction false} PublishFollows(c: Codec, producer: Text, full: seq<Row>, sizes: seq<nat>)
    requires Hashes(c) && Complete(producer, |full|, full) && |full| <= MAX_OFFSET && GoodSizes(sizes)
             && Sum(sizes) <= |full|
    ensures NextOffset(Publish(c, producer, full, sizes)) == Some(Sum(sizes) + 1)
    ensures forall i :: 0 <= i < |Publish(c, producer, full, sizes)| ==>
              BoundTo(c, full, Publish(c, producer, full, sizes)[i])
    ensures |Publish(c, producer, full, sizes)| == |sizes|
  {
    hide BoundTo, Complete, Hashable, PositiveDecimal, HashOf, SoundBatch, IsHash, Hashes;
    if sizes != [] {
      var init, size := sizes[..|sizes| - 1], sizes[|sizes| - 1];
      var lo := Sum(init);
      PublishFollows(c, producer, full, init);
      PublishedBatch(c, producer, full, lo, lo + size);
      var rest, last := Publish(c, producer, full, init),
          Batch(Decimal(lo + 1), Decimal(lo + size), HashOf(c, full[lo..lo + size]));
      var all := Publish(c, producer, full, sizes);
      assert all == rest + [last];
      assert all[..|all| - 1] == rest && all[|all| - 1] == last;
    }
  }

  // Whatever window sizes a publisher uses, its evidence verifies against the same index.
  lemma {:induction false} AnyWindowingVerifies(c: Codec, producer: Text, full: seq<Row>, sizes: seq<nat>)
    requires Hashes(c) && Complete(producer, |full|, full) && |full| <= MAX_OFFSET
    requires (forall i :: 0 <= i < |sizes| ==> 1 <= sizes[i] <= 128) && Sum(sizes) == |full|
    ensures Verified(c, producer, full, Publish(c, producer, full, sizes))
  {
    PublishFollows(c, producer, full, sizes);
  }

  // ---------- subject slices ----------

  // The rows of one subject, in index order.
  function Slice(s: Subject, full: seq<Row>): seq<Row> {
    if full == [] then []
    else
      var last, before := full[|full| - 1], Slice(s, full[..|full| - 1]);
      if last.subject == s then before + [last] else before
  }

  method SubjectIndexJSONL(c: Codec, s: Subject, full: seq<Row>) returns (r: Option<(Text, Text, nat)>)
    ensures r.Some? <==> ValidSubject(s)
    ensures r.Some? ==> var slice := Slice(s, full); r.value == (Jsonl(c, slice), c.digest(Jsonl(c, slice)), |slice|)
  {
    if !ValidSubject(s) {
      return None;
    }
    var out: Text, count: nat := [], 0;
    for i := 0 to |full|
      invariant out == Jsonl(c, Slice(s, full[..i])) && count == |Slice(s, full[..i])|
    {
      assert full[..i + 1][..i] == full[..i];
      if full[i].subject == s {
        ghost var before := Slice(s, full[..i]);
        assert (before + [full[i]])[..|before|] == before;
        out := out + c.line(full[i]) + [10];
        count := count + 1;
      }
    }
    assert full[..|full|] == full;
    return Some((out, c.digest(out), count));
  }

  lemma {:induction false} SliceSays(s: Subject, full: seq<Row>, r: Row)
    ensures r in Slice(s, full) <==> r in full && r.subject == s
  {
    if full != [] {
      SliceSays(s, full[..|full| - 1], r);
      assert full == full[..|full| - 1] + [full[|full| - 1]];
    }
  }

  predicate DistinctSubjects(subjects: seq<Subject>) {
    forall i, j :: 0 <= i < j < |subjects| ==> subjects[i] != subjects[j]
  }

  function Counts(subjects: seq<Subject>, full: seq<Row>): nat {
    if subjects == [] then 0
    else Counts(subjects[..|subjects| - 1], full) + |Slice(subjects[|subjects| - 1], full)|
  }

  lemma {:induction false} CountsOneMore(subjects: seq<Subject>, full: seq<Row>)
    requires DistinctSubjects(subjects) && full != []
    ensures Counts(subjects, full) ==
              Counts(subjects, full[..|full| - 1]) + (if full[|full| - 1].subject in subjects then 1 else 0)
  {
    if subjects != [] {
      var init, last := subjects[..|subjects| - 1], subjects[|subjects| - 1];
      CountsOneMore(init, full);
      assert subjects == init + [last];
    }
  }

  // The slices of all subjects count every row of the index once.
  lemma {:induction false} SliceCountsAddUp(subjects: seq<Subject>, full: seq<Row>)
    requires forall i, j :: 0 <= i < j < |subjects| ==> subjects[i] != subjects[j]
    requires forall i :: 0 <= i < |full| ==> full[i].subject in subjects
    ensures Counts(subjects, full) == |full|
  {
    if full == [] {
      NothingToCount(subjects);
    } else {
      SliceCountsAddUp(subjects, full[..|full| - 1]);
      CountsOneMore(subjects, full);
    }
  }

  lemma {:induction false} NothingToCount(subjects: seq<Subject>)
    ensures Counts(subjects, []) == 0
  {
    if subjects != [] {
      NothingToCount(subjects[..|subjects| - 1]);
    }
  }

  predicate ByOffset(rows: seq<Row>) {
    forall i, j :: 0 <= i < j < |rows| ==> OffsetOf(rows[i]) < OffsetOf(rows[j])
  }

  lemma {:induction false} RestHas(s: seq<Row>, r: Row)
    requires ByOffset(s) && s != []
    ensures ByOffset(s[1..])
    ensures r in s[1..] <==> r in s && r != s[0]
  {
    hide OffsetOf;
    assert forall i :: 0 < i < |s| ==> OffsetOf(s[0]) < OffsetOf(s[i]);
  }

  // Rows in offset order are determined by which rows they are.
  lemma {:induction false} OffsetOrderIsUnique(a: seq<Row>, b: seq<Row>)
    requires ByOffset(a) && ByOffset(b) && forall r :: r in a <==> r in b
    ensures a == b
  {
    hide OffsetOf;
    if a == [] {
      if b != [] {
        FirstIsIn(b);
      }
    } else {
      FirstIsIn(a);
      assert b != [];
      FirstIsIn(b);
      var i :| 0 <= i < |b| && b[i] == a[0];
      var j :| 0 <= j < |a| && a[j] == b[0];
      assert OffsetOf(b[0]) <= OffsetOf(a[0]) && OffsetOf(a[0]) <= OffsetOf(b[0]);
      assert i == 0;
      forall r ensures r in a[1..] <==> r in b[1..] {
        RestHas(a, r);
        RestHas(b, r);
      }
      OffsetOrderIsUnique(a[1..], b[1..]);
      assert a == [a[0]] + a[1..] && b == [b[0]] + b[1..];
    }
  }

  lemma {:induction false} FirstIsIn(rows: seq<Row>)
    requires rows != []
    ensures rows[0] in rows
  {
  }

  // Merging the slices of all subjects by offset gives the index back.
  lemma {:induction false} SlicesMergeToTheIndex(producer: Text, full: seq<Row>, subjects: seq<Subject>,
          merged: seq<Row>)
    requires Complete(producer, |full|, full) && forall i :: 0 <= i < |full| ==> full[i].subject in subjects
    requires ByOffset(merged) && forall r :: r in merged <==>
               exists k :: 0 <= k < |subjects| && r in Slice(subjects[k], full)
    ensures merged == full
  {
    forall r ensures r in merged <==> r in full {
      if r in merged {
        var k :| 0 <= k < |subjects| && r in Slice(subjects[k], full);
        SliceSays(subjects[k], full, r);
      }
      if r in full {
        var k :| 0 <= k < |subjects| && subjects[k] == r.subject;
        SliceSays(subjects[k], full, r);
      }
    }
    forall i, j | 0 <= i < j < |full| ensures OffsetOf(full[i]) < OffsetOf(full[j]) {
      assert RowAt(producer, full[i], i + 1) && RowAt(producer, full[j], j + 1);
    }
    OffsetOrderIsUnique(merged, full);
  }
}
