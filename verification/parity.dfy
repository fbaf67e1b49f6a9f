// Parity of the exact lanes with an external scorer: chunk IDs that keep the order of the
// tuples they encode, and the comparison of two rankings.
module Parity {
  import opened Basics
  import opened Bytes
  import opened Sorting
  import opened Ranking

  const SEPARATOR: Byte := 33
  const MAX_ID := 256

  // ---------- composite IDs ----------

  // What follows the first segment: each further one behind a separator.
  function Tail(parts: seq<Text>): Text {
    if parts == [] then [] else [SEPARATOR] + (Hex(parts[0]) + Tail(parts[1..]))
  }

  function Joined(parts: seq<Text>): Text
    requires parts != []
  {
    Hex(parts[0]) + Tail(parts[1..])
  }

  predicate Encodable(parts: seq<Text>) {
    parts != [] && (forall i :: 0 <= i < |parts| ==> parts[i] != []) && |Joined(parts)| <= MAX_ID
  }

  // Tuples compared segment by segment.
  predicate TupleLess(a: seq<Text>, b: seq<Text>) {
    b != [] && (a == [] || Less(a[0], b[0]) || (a[0] == b[0] && TupleLess(a[1..], b[1..])))
  }

  lemma {:induction false} TailAppend(parts: seq<Text>, last: Text)
    ensures Tail(parts + [last]) == Tail(parts) + ([SEPARATOR] + Hex(last))
  {
    if parts == [] {
      assert Hex(last) + Tail([]) == Hex(last);
    } else {
      assert (parts + [last])[1..] == parts[1..] + [last];
      TailAppend(parts[1..], last);
    }
  }

  method Composite(parts: seq<Text>) returns (id: Option<Text>)
    ensures id == if Encodable(parts) then Some(Joined(parts)) else None
  {
    if parts == [] {
      return None;
    }
    var value: Text := [];
    for i := 0 to |parts|
      invariant forall k :: 0 <= k < i ==> parts[k] != []
      invariant i == 0 ==> value == []
      invariant i > 0 ==> value == Joined(parts[..i])
    {
      if parts[i] == [] {
        return None;
      }
      if i > 0 {
        value := value + [SEPARATOR];
        TailAppend(parts[..i][1..], parts[i]);
        assert parts[..i + 1][1..] == parts[..i][1..] + [parts[i]];
      }
      value := value + Hex(parts[i]);
    }
    assert parts[..|parts|] == parts;
    if |value| > MAX_ID {
      return None;
    }
    return Some(value);
  }

  // Two-digit hexadecimal keeps the order of bytes.
  lemma {:induction false} HexByteOrder(a: Byte, b: Byte, u: Text, v: Text)
    requires a != b
    ensures Less([HexDigit(a / 16), HexDigit(a % 16)] + u, [HexDigit(b / 16), HexDigit(b % 16)] + v) <==> a < b
  {
    var x := [HexDigit(a / 16), HexDigit(a % 16)] + u;
    var y := [HexDigit(b / 16), HexDigit(b % 16)] + v;
    LessAtDifference(x, y, if a / 16 != b / 16 then 0 else 1);
  }

  predicate StartsLow(t: Text) {
    t == [] || t[0] == SEPARATOR
  }

  // A segment and what follows it: the segments decide unless they are equal.
  lemma {:induction false} SegmentOrder(x: Text, y: Text, u: Text, v: Text)
    requires StartsLow(u) && StartsLow(v)
    ensures Less(Hex(x) + u, Hex(y) + v) <==> Less(x, y) || (x == y && Less(u, v))
  {
    if x == [] || y == [] {
      assert x == [] ==> Hex(x) + u == u;
      assert y == [] ==> Hex(y) + v == v;
    } else if x[0] == y[0] {
      var head := [HexDigit(x[0] / 16), HexDigit(x[0] % 16)];
      assert Hex(x) + u == head + (Hex(x[1..]) + u);
      assert Hex(y) + v == head + (Hex(y[1..]) + v);
      LessAfterPrefix(head, Hex(x[1..]) + u, Hex(y[1..]) + v);
      SegmentOrder(x[1..], y[1..], u, v);
      assert x == [x[0]] + x[1..] && y == [y[0]] + y[1..];
    } else {
      HexByteOrder(x[0], y[0], Hex(x[1..]) + u, Hex(y[1..]) + v);
      assert Hex(x) + u == [HexDigit(x[0] / 16), HexDigit(x[0] % 16)] + (Hex(x[1..]) + u);
      assert Hex(y) + v == [HexDigit(y[0] / 16), HexDigit(y[0] % 16)] + (Hex(y[1..]) + v);
    }
  }

  lemma {:induction false} TailOrder(a: seq<Text>, b: seq<Text>)
    ensures Less(Tail(a), Tail(b)) <==> TupleLess(a, b)
  {
    if a != [] && b != [] {
      SegmentOrder(a[0], b[0], Tail(a[1..]), Tail(b[1..]));
      TailOrder(a[1..], b[1..]);
    }
  }

  // Byte order of the encodings is tuple order.
  lemma {:induction false} CompositeOrder(a: seq<Text>, b: seq<Text>)
    requires a != [] && b != []
    ensures Less(Joined(a), Joined(b)) <==> TupleLess(a, b)
  {
    SegmentOrder(a[0], b[0], Tail(a[1..]), Tail(b[1..]));
    TailOrder(a[1..], b[1..]);
  }

  lemma {:induction false} TupleTotal(a: seq<Text>, b: seq<Text>)
    ensures a == b || TupleLess(a, b) || TupleLess(b, a)
  {
    if a != [] && b != [] {
      LessTotal(a[0], b[0]);
      TupleTotal(a[1..], b[1..]);
      assert a == [a[0]] + a[1..] && b == [b[0]] + b[1..];
    }
  }

  // Different tuples have different encodings.
  lemma {:induction false} CompositeInjective(a: seq<Text>, b: seq<Text>)
    requires a != [] && b != [] && Joined(a) == Joined(b)
    ensures a == b
  {
    TupleTotal(a, b);
    CompositeOrder(a, b);
    CompositeOrder(b, a);
    LessIrreflexive(Joined(a));
  }

  // ---------- rankings ----------

  datatype ScoredChunk = ScoredChunk(document: Text, revision: Text, chunk: Text, key: string, score: real)

  datatype GoHit = GoHit(document: Text, revision: Text, chunk: Text, score: real)

  predicate ScoredLess(a: ScoredChunk, b: ScoredChunk) {
    if a.score != b.score then a.score > b.score
    else if a.document != b.document then Less(a.document, b.document)
    else if a.revision != b.revision then Less(a.revision, b.revision)
    else Less(a.chunk, b.chunk)
  }

  function TupleOf(r: ScoredChunk): seq<Text> {
    [r.document, r.revision, r.chunk]
  }

  function HitOf(r: ScoredChunk): Hit {
    Hit(Joined(TupleOf(r)), r.score)
  }

  // The external order of rows is the lane's order of their composite hits.
  lemma {:induction false} SameOrder(a: ScoredChunk, b: ScoredChunk)
    ensures ScoredLess(a, b) <==> Better(HitOf(a), HitOf(b))
  {
    CompositeOrder(TupleOf(a), TupleOf(b));
    var x, y := TupleOf(a), TupleOf(b);
    LessIrreflexive(a.document);
    LessIrreflexive(a.revision);
    assert x[1..] == [a.revision, a.chunk] && y[1..] == [b.revision, b.chunk];
    assert x[1..][1..] == [a.chunk] && y[1..][1..] == [b.chunk];
    assert TupleLess([a.chunk], [b.chunk]) <==> Less(a.chunk, b.chunk);
    assert TupleLess(x[1..], y[1..]) <==>
             Less(a.revision, b.revision) || (a.revision == b.revision && Less(a.chunk, b.chunk));
  }

  // Rows in the order a loaded scorer report has them: no row before its predecessor, and
  // no chunk twice.
  predicate InReportOrder(raw: seq<ScoredChunk>) {
    (forall i :: 0 < i < |raw| ==> !ScoredLess(raw[i], raw[i - 1]))
    && (forall i, j :: 0 <= i < j < |raw| ==> TupleOf(raw[i]) != TupleOf(raw[j]))
  }

  lemma {:induction false} ReportOrderRanks(raw: seq<ScoredChunk>, i: nat, j: nat)
    requires InReportOrder(raw) && i < j < |raw|
    ensures ScoredLess(raw[i], raw[j])
    decreases j
  {
    BetterIsStrictTotalOrder();
    var p, q := raw[j - 1], raw[j];
    SameOrder(p, q);
    SameOrder(q, p);
    if TupleOf(p) != TupleOf(q) && HitOf(p) == HitOf(q) {
      CompositeInjective(TupleOf(p), TupleOf(q));
    }
    if i < j - 1 {
      ReportOrderRanks(raw, i, j - 1);
      SameOrder(raw[i], p);
      SameOrder(raw[i], q);
    }
  }

  // The rows a lane is to return: all of them, or those with a positive score.
  function Expected(sparse: bool, raw: seq<ScoredChunk>): seq<ScoredChunk> {
    if raw == [] then []
    else
      var last := raw[|raw| - 1];
      Expected(sparse, raw[..|raw| - 1]) + (if !sparse || last.score > 0.0 then [last] else [])
  }

  lemma {:induction false} ExpectedSays(sparse: bool, raw: seq<ScoredChunk>)
    requires forall i, j :: 0 <= i < j < |raw| ==> ScoredLess(raw[i], raw[j])
    ensures forall r :: r in Expected(sparse, raw) <==> r in raw && (!sparse || r.score > 0.0)
    ensures forall i, j :: 0 <= i < j < |Expected(sparse, raw)| ==>
              ScoredLess(Expected(sparse, raw)[i], Expected(sparse, raw)[j])
  {
    if raw != [] {
      var rest, last := raw[..|raw| - 1], raw[|raw| - 1];
      ExpectedSays(sparse, rest);
      assert raw == rest + [last];
      var before := Expected(sparse, rest);
      forall i | 0 <= i < |before| ensures ScoredLess(before[i], last) {
        assert before[i] in rest;
      }
    }
  }

  function HitsOf(rows: seq<ScoredChunk>): seq<Hit> {
    seq(|rows|, i requires 0 <= i < |rows| => HitOf(rows[i]))
  }

  function GoHitOf(r: ScoredChunk): GoHit {
    GoHit(r.document, r.revision, r.chunk, r.score)
  }

  function GoHitsOf(rows: seq<ScoredChunk>): seq<GoHit> {
    seq(|rows|, i requires 0 <= i < |rows| => GoHitOf(rows[i]))
  }

  // A lane that ranks the expected rows by their composite IDs returns them in report order.
  lemma {:induction false} RankingsAgree(sparse: bool, raw: seq<ScoredChunk>, hits: seq<Hit>)
    requires InReportOrder(raw) && Ranked(Better, hits) && Elements(hits) == Elements(HitsOf(Expected(sparse, raw)))
    ensures hits == HitsOf(Expected(sparse, raw))
  {
    forall i, j | 0 <= i < j < |raw| ensures ScoredLess(raw[i], raw[j]) {
      ReportOrderRanks(raw, i, j);
    }
    ExpectedSays(sparse, raw);
    var rows := Expected(sparse, raw);
    forall i, j | 0 <= i < j < |rows| ensures Better(HitsOf(rows)[i], HitsOf(rows)[j]) {
      SameOrder(rows[i], rows[j]);
    }
    BetterIsStrictTotalOrder();
    RankingUnique(Better, hits, HitsOf(rows));
  }

  // ---------- comparing one lane ----------

  const SCORE_TOLERANCE := 0.000000001

  datatype LaneReport = LaneReport(
    compared: nat, topKEqual: bool, fullTopKEqual: bool, zeroExcluded: nat, maxAbsDelta: real)

  function NulKey(document: Text, revision: Text, chunk: Text): Text {
    document + [0] + revision + [0] + chunk
  }

  function KeyOf(hit: GoHit, chunks: map<Text, string>): Option<string> {
    var key := NulKey(hit.document, hit.revision, hit.chunk);
    if key in chunks then Some(chunks[key]) else None
  }

  function AbsDelta(x: real, y: real): real {
    if x >= y then x - y else y - x
  }

  // What the lane says about one row; a sparse lane may leave out a row with score zero.
  function LaneScore(sparse: bool, r: ScoredChunk, scores: map<string, real>): Option<real> {
    if r.key in scores then Some(scores[r.key]) else if sparse && r.score == 0.0 then Some(0.0) else None
  }

  predicate RowAgrees(sparse: bool, r: ScoredChunk, scores: map<string, real>) {
    LaneScore(sparse, r, scores).Some? && AbsDelta(r.score, LaneScore(sparse, r, scores).value) <= SCORE_TOLERANCE
  }

  function KeysOf(rows: seq<ScoredChunk>): seq<string> {
    seq(|rows|, i requires 0 <= i < |rows| => rows[i].key)
  }

  // The lane's hits by key: known chunks, each once.
  ghost predicate Keyed(got: seq<GoHit>, chunks: map<Text, string>, keys: seq<string>, scores: map<string, real>) {
    |keys| == |got| && Distinct(keys)
    && (forall i :: 0 <= i < |got| ==>
         KeyOf(got[i], chunks) == Some(keys[i]) && keys[i] in scores && scores[keys[i]] == got[i].score)
    && (forall k :: k in scores ==> k in keys)
  }

  // Every row agrees within the tolerance, and the lane's order is the report's.
  ghost predicate Agrees(sparse: bool, raw: seq<ScoredChunk>, keys: seq<string>, scores: map<string, real>) {
    (forall i :: 0 <= i < |raw| ==> RowAgrees(sparse, raw[i], scores)) && keys == KeysOf(Expected(sparse, raw))
  }

  ghost predicate KeysAreDistinct(got: seq<GoHit>, chunks: map<Text, string>) {
    (forall i :: 0 <= i < |got| ==> KeyOf(got[i], chunks).Some?)
    && (forall i, j :: 0 <= i < j < |got| ==> KeyOf(got[i], chunks) != KeyOf(got[j], chunks))
  }

  method KeyHits(got: seq<GoHit>, chunks: map<Text, string>)
    returns (ok: bool, keys: seq<string>, scores: map<string, real>)
    ensures ok <==> KeysAreDistinct(got, chunks)
    ensures ok ==> Keyed(got, chunks, keys, scores)
  {
    keys, scores := [], map[];
    for i := 0 to |got|
      invariant Keyed(got[..i], chunks, keys, scores)
      invariant KeysAreDistinct(got[..i], chunks)
    {
      var key := KeyOf(got[i], chunks);
      assert got[..i + 1] == got[..i] + [got[i]];
      if key.None? {
        return false, keys, scores;
      }
      if key.value in scores {
        var k :| 0 <= k < |keys| && keys[k] == key.value;
        assert KeyOf(got[..i][k], chunks) == key;
        return false, keys, scores;
      }
      keys, scores := keys + [key.value], scores[key.value := got[i].score];
    }
    assert got[..|got|] == got;
    ok := true;
  }

  function ZeroExcluded(sparse: bool, raw: seq<ScoredChunk>, scores: map<string, real>): nat {
    if raw == [] then 0
    else
      var last := raw[|raw| - 1];
      ZeroExcluded(sparse, raw[..|raw| - 1], scores)
          + (if sparse && last.score == 0.0 && last.key !in scores then 1 else 0)
  }

  function Max(x: real, y: real): real {
    if x >= y then x else y
  }

  function MaxDelta(sparse: bool, raw: seq<ScoredChunk>, scores: map<string, real>): real {
    if raw == [] then 0.0
    else
      var last := raw[|raw| - 1];
      var score := LaneScore(sparse, last, scores);
      Max(MaxDelta(sparse, raw[..|raw| - 1], scores), if score.Some? then AbsDelta(last.score, score.value) else 0.0)
  }

  method CompareScores(sparse: bool, raw: seq<ScoredChunk>, scores: map<string, real>)
    returns (ok: bool, report: LaneReport, expected: seq<string>)
    ensures ok <==> forall i :: 0 <= i < |raw| ==> RowAgrees(sparse, raw[i], scores)
    ensures ok ==>
              report == LaneReport(|raw|, true, true, ZeroExcluded(sparse, raw, scores), MaxDelta(sparse, raw, scores))
    ensures ok ==> expected == KeysOf(Expected(sparse, raw))
  {
    report, expected := LaneReport(0, true, true, 0, 0.0), [];
    for i := 0 to |raw|
      invariant forall k :: 0 <= k < i ==> RowAgrees(sparse, raw[k], scores)
      invariant report == LaneReport(i, true, true, ZeroExcluded(sparse, raw[..i], scores),
                                     MaxDelta(sparse, raw[..i], scores))
      invariant expected == KeysOf(Expected(sparse, raw[..i]))
    {
      assert raw[..i + 1][..i] == raw[..i];
      var r := raw[i];
      var score := 0.0;
      if r.key in scores {
        score := scores[r.key];
      } else if sparse && r.score == 0.0 {
        report := report.(zeroExcluded := report.zeroExcluded + 1);
      } else {
        return false, report, expected;
      }
      var delta := AbsDelta(r.score, score);
      if delta > SCORE_TOLERANCE {
        return false, report, expected;
      }
      report := report.(maxAbsDelta := Max(report.maxAbsDelta, delta), compared := report.compared + 1);
      if !sparse || r.score > 0.0 {
        expected := expected + [r.key];
      }
    }
    assert raw[..|raw|] == raw;
    ok := true;
  }

  // The first k keys are those of the scorer's own top list.
  ghost predicate SameTop(keys: seq<string>, top: seq<ScoredChunk>, k: nat) {
    |keys| >= |top| && forall i :: 0 <= i < |keys| && i < k ==> SameAt(keys, top, i)
  }

  predicate SameAt(keys: seq<string>, top: seq<ScoredChunk>, i: nat)
    requires i < |keys|
  {
    i < |top| && keys[i] == top[i].key
  }

  // The two rankings by position, and then their first k; after the first check the second
  // can no longer fail.
  method CompareRanks(keys: seq<string>, expected: seq<string>, top: seq<ScoredChunk>, topK: nat, before: LaneReport)
    returns (r: Option<LaneReport>)
    requires before.topKEqual && before.fullTopKEqual
    ensures r.Some? <==> keys == expected
    ensures r.Some? ==>
              r.value == before.(fullTopKEqual := r.value.fullTopKEqual)
              && (r.value.fullTopKEqual <==> SameTop(keys, top, topK))
  {
    if |keys| != |expected| {
      return None;
    }
    for i := 0 to |expected|
      invariant forall k :: 0 <= k < i ==> keys[k] == expected[k]
    {
      if keys[i] != expected[i] {
        return None;
      }
    }
    assert keys == expected;
    var report := before;
    var n := Min(topK, |keys|);
    for i := 0 to n
      invariant report == before.(fullTopKEqual := report.fullTopKEqual)
      invariant report.fullTopKEqual <==> forall k :: 0 <= k < i ==> SameAt(keys, top, k)
    {
      if i >= |expected| || keys[i] != expected[i] {
        report := report.(topKEqual := false);
      }
      if !SameAt(keys, top, i) {
        report := report.(fullTopKEqual := false);
      }
    }
    if |keys| < |top| {
      report := report.(fullTopKEqual := false);
    }
    if !report.topKEqual {
      return None;
    }
    return Some(report);
  }

  // What an accepted report says.
  ghost predicate Reports(r: LaneReport, sparse: bool, raw: seq<ScoredChunk>, top: seq<ScoredChunk>, topK: nat,
          keys: seq<string>, scores: map<string, real>)
  {
    r == LaneReport(|raw|, true, r.fullTopKEqual, ZeroExcluded(sparse, raw, scores), MaxDelta(sparse, raw, scores))
    && (r.fullTopKEqual <==> SameTop(keys, top, topK))
  }

  // A lane returns the expected rows with the report's scores, in the report's order.
  ghost predicate EqualLane(sparse: bool, raw: seq<ScoredChunk>, got: seq<GoHit>, chunks: map<Text, string>) {
    InReportOrder(raw) && Knows(chunks, raw) && got == GoHitsOf(Expected(sparse, raw))
    && (sparse ==> forall i :: 0 <= i < |raw| ==> raw[i].score >= 0.0)
  }

  // One lane against the report: accepted exactly if every row agrees and the order is the
  // same, and always if the scores are equal.
  method CompareLane(sparse: bool, raw: seq<ScoredChunk>, top: seq<ScoredChunk>, got: seq<GoHit>, topK: nat,
          chunks: map<Text, string>)
    returns (r: Option<LaneReport>, ghost keys: seq<string>, ghost scores: map<string, real>)
    ensures r.Some? ==> KeysAreDistinct(got, chunks)
    ensures KeysAreDistinct(got, chunks) ==>
              Keyed(got, chunks, keys, scores) && (r.Some? <==> Agrees(sparse, raw, keys, scores))
    ensures r.Some? ==> Reports(r.value, sparse, raw, top, topK, keys, scores)
    ensures EqualLane(sparse, raw, got, chunks) ==> r.Some? && r.value.maxAbsDelta == 0.0
  {
    var ok, goKeys, goScores := KeyHits(got, chunks);
    keys, scores := goKeys, goScores;
    if EqualLane(sparse, raw, got, chunks) {
      EqualScoresAgree(sparse, raw, chunks, keys, scores);
    }
    if !ok {
      return None, keys, scores;
    }
    var report, expected;
    ok, report, expected := CompareScores(sparse, raw, goScores);
    if !ok {
      return None, keys, scores;
    }
    r := CompareRanks(goKeys, expected, top, topK, report);
  }

  lemma {:induction false} ExactScoresHaveNoDelta(sparse: bool, raw: seq<ScoredChunk>, scores: map<string, real>)
    requires forall i :: 0 <= i < |raw| ==> LaneScore(sparse, raw[i], scores) == Some(raw[i].score)
    ensures MaxDelta(sparse, raw, scores) == 0.0
  {
    if raw != [] {
      ExactScoresHaveNoDelta(sparse, raw[..|raw| - 1], scores);
    }
  }

  // The chunk map knows every row of the report under its tuple.
  ghost predicate Knows(chunks: map<Text, string>, raw: seq<ScoredChunk>) {
    (forall i :: 0 <= i < |raw| ==> KeyOf(GoHitOf(raw[i]), chunks) == Some(raw[i].key))
    && forall i, j :: 0 <= i < j < |raw| ==> raw[i].key != raw[j].key
  }

  lemma {:induction false} ExpectedKeysDistinct(sparse: bool, raw: seq<ScoredChunk>)
    requires forall i, j :: 0 <= i < j < |raw| ==> raw[i].key != raw[j].key
    ensures forall i, j :: 0 <= i < j < |Expected(sparse, raw)| ==>
              Expected(sparse, raw)[i].key != Expected(sparse, raw)[j].key
    ensures forall i :: 0 <= i < |Expected(sparse, raw)| ==> Expected(sparse, raw)[i] in raw
  {
    if raw != [] {
      var rest, last := raw[..|raw| - 1], raw[|raw| - 1];
      ExpectedKeysDistinct(sparse, rest);
      var before := Expected(sparse, rest);
      forall i | 0 <= i < |before| ensures before[i].key != last.key && before[i] in raw {
        var k :| 0 <= k < |rest| && rest[k] == before[i];
        assert raw[k] == rest[k];
      }
    }
  }

  // Equal scores agree whatever the pattern of ties, and without any difference.
  lemma {:induction false} EqualScoresAgree(sparse: bool, raw: seq<ScoredChunk>, chunks: map<Text, string>,
          keys: seq<string>, scores: map<string, real>)
    requires EqualLane(sparse, raw, GoHitsOf(Expected(sparse, raw)), chunks)
    ensures KeysAreDistinct(GoHitsOf(Expected(sparse, raw)), chunks)
    ensures Keyed(GoHitsOf(Expected(sparse, raw)), chunks, keys, scores) ==>
              Agrees(sparse, raw, keys, scores) && MaxDelta(sparse, raw, scores) == 0.0
  {
    hide Expected, KeyOf, MaxDelta;
    ExpectedKeysDistinct(sparse, raw);
    var rows := Expected(sparse, raw);
    forall i | 0 <= i < |rows| ensures KeyOf(GoHitsOf(rows)[i], chunks) == Some(rows[i].key) {
      var k :| 0 <= k < |raw| && raw[k] == rows[i];
    }
    if Keyed(GoHitsOf(rows), chunks, keys, scores) {
      assert keys == KeysOf(rows);
      LaneHasReportScores(sparse, raw, keys, scores);
      ExactScoresHaveNoDelta(sparse, raw, scores);
    }
  }

  lemma {:induction false} LaneHasReportScores(sparse: bool, raw: seq<ScoredChunk>, keys: seq<string>,
          scores: map<string, real>)
    requires forall i, j :: 0 <= i < j < |raw| ==> raw[i].key != raw[j].key
    requires sparse ==> forall i :: 0 <= i < |raw| ==> raw[i].score >= 0.0
    requires keys == KeysOf(Expected(sparse, raw)) && forall k :: k in scores ==> k in keys
    requires forall i :: 0 <= i < |keys| ==> keys[i] in scores && scores[keys[i]] == Expected(sparse, raw)[i].score
    ensures forall i :: 0 <= i < |raw| ==> LaneScore(sparse, raw[i], scores) == Some(raw[i].score)
  {
    ExpectedKeysDistinct(sparse, raw);
    var rows := Expected(sparse, raw);
    forall i | 0 <= i < |raw| ensures LaneScore(sparse, raw[i], scores) == Some(raw[i].score) {
      if !sparse || raw[i].score > 0.0 {
        IsExpected(sparse, raw, i);
        var k :| 0 <= k < |rows| && rows[k] == raw[i];
        assert keys[k] == raw[i].key;
      } else if raw[i].key in scores {
        KeyFindsRow(sparse, raw, i);
      }
    }
  }

  // A key among the expected keys is that of an expected row with this key.
  lemma {:induction false} KeyFindsRow(sparse: bool, raw: seq<ScoredChunk>, i: nat)
    requires forall i, j :: 0 <= i < j < |raw| ==> raw[i].key != raw[j].key
    requires i < |raw| && raw[i].key in KeysOf(Expected(sparse, raw))
    ensures exists k :: 0 <= k < |Expected(sparse, raw)| && Expected(sparse, raw)[k] == raw[i]
  {
    ExpectedKeysDistinct(sparse, raw);
    var rows := Expected(sparse, raw);
    var k :| 0 <= k < |rows| && KeysOf(rows)[k] == raw[i].key;
    assert rows[k] in raw;
    var n :| 0 <= n < |raw| && raw[n] == rows[k];
    assert n == i;
  }

  lemma {:induction false} IsExpected(sparse: bool, raw: seq<ScoredChunk>, i: nat)
    requires i < |raw| && (!sparse || raw[i].score > 0.0)
    ensures raw[i] in Expected(sparse, raw)
  {
    if i < |raw| - 1 {
      IsExpected(sparse, raw[..|raw| - 1], i);
    }
  }

  // ---------- from the lane's candidates to hits ----------

  datatype ChunkRow = ChunkRow(document: Text, revision: Text, chunk: Text)

  // The row a composite ID was made from.
  ghost predicate LooksUp(lookup: map<Text, ChunkRow>, raw: seq<ScoredChunk>) {
    forall r :: r in raw ==> HitOf(r).id in lookup && lookup[HitOf(r).id] == ChunkRow(r.document, r.revision, r.chunk)
  }

  method MapHits(hits: seq<Hit>, lookup: map<Text, ChunkRow>) returns (got: Option<seq<GoHit>>)
    ensures got.Some? <==> forall i :: 0 <= i < |hits| ==> hits[i].id in lookup
    ensures got.Some? ==> |got.value| == |hits| && forall i :: 0 <= i < |hits| ==>
              var row := lookup[hits[i].id]; got.value[i] == GoHit(row.document, row.revision, row.chunk, hits[i].score)
  {
    var result: seq<GoHit> := [];
    for i := 0 to |hits|
      invariant |result| == i
      invariant forall k :: 0 <= k < i ==> hits[k].id in lookup
      invariant forall k :: 0 <= k < i ==>
                  var row := lookup[hits[k].id];
                  result[k] == GoHit(row.document, row.revision, row.chunk, hits[k].score)
    {
      if hits[i].id !in lookup {
        return None;
      }
      var row := lookup[hits[i].id];
      result := result + [GoHit(row.document, row.revision, row.chunk, hits[i].score)];
    }
    return Some(result);
  }

  // A lane whose ranking over composite IDs has the expected rows is accepted, whatever ties
  // its scores have.
  method CompareExactLane(sparse: bool, raw: seq<ScoredChunk>, top: seq<ScoredChunk>, hits: seq<Hit>, topK: nat,
                          lookup: map<Text, ChunkRow>, chunks: map<Text, string>)
    returns (r: Option<LaneReport>)
    requires InReportOrder(raw) && Knows(chunks, raw) && LooksUp(lookup, raw)
    requires sparse ==> forall i :: 0 <= i < |raw| ==> raw[i].score >= 0.0
    requires Ranked(Better, hits) && Elements(hits) == Elements(HitsOf(Expected(sparse, raw)))
    ensures r.Some? && r.value.compared == |raw| && r.value.maxAbsDelta == 0.0
    ensures r.value.fullTopKEqual <==> SameTop(KeysOf(Expected(sparse, raw)), top, topK)
  {
    RankingsAgree(sparse, raw, hits);
    ExpectedKeysDistinct(sparse, raw);
    var got := MapHits(hits, lookup);
    assert got.Some? && got.value == GoHitsOf(Expected(sparse, raw));
    ghost var keys, scores;
    r, keys, scores := CompareLane(sparse, raw, top, got.value, topK, chunks);
  }
}
