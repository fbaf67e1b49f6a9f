// Sparse impacts as fixed-width records: a little-endian 32-bit term ID, then a weight.
module Impact {
  import opened Basics
  import opened Bytes
  import opened Codec
  import opened RealArithmetic

  type Uint32 = x: int | 0 <= x < 0x1_0000_0000

  datatype Term = Term(termId: Uint32, weight: Byte)

  const RECORD := 5

  function RecordBytes(t: Term): Text {
    var id: int := t.termId;
    var high := id / 256;
    var higher := high / 256;
    [id % 256, high % 256, higher % 256, higher / 256, t.weight]
  }

  function RecordOf(b: Text): Term
    requires |b| == RECORD
  {
    Term(Little(b[0], Little(b[1], Little(b[2], b[3]))), b[4])
  }

  // A low byte in front of what is above it.
  function Little(low: int, high: int): int {
    low + 256 * high
  }

  // A length that is made of whole records.
  predicate Whole(n: int) {
    n % RECORD == 0
  }

  lemma {:induction false} WholeSteps(n: int)
    requires Whole(n)
    ensures Whole(n + RECORD) && Whole(n - RECORD) && (n > 0 ==> n >= RECORD)
  {
  }

  // Between two whole lengths there is room for a record.
  lemma {:induction false} WholeGap(i: int, n: int)
    requires Whole(i) && Whole(n) && i < n
    ensures i + RECORD <= n
  {
  }

  function ImpactBytes(terms: seq<Term>): Text {
    if terms == [] then [] else ImpactBytes(terms[..|terms| - 1]) + RecordBytes(terms[|terms| - 1])
  }

  function ImpactTerms(b: Text): seq<Term>
    requires Whole(|b|)
  {
    WholeSteps(|b|);
    if b == [] then [] else ImpactTerms(b[..|b| - RECORD]) + [RecordOf(b[|b| - RECORD..])]
  }

  method EncodeImpact(terms: seq<Term>) returns (out: Text)
    ensures out == ImpactBytes(terms)
  {
    hide RecordBytes;
    out := [];
    for i := 0 to |terms|
      invariant out == ImpactBytes(terms[..i])
    {
      assert terms[..i + 1][..i] == terms[..i];
      out := out + RecordBytes(terms[i]);
    }
    assert terms[..|terms|] == terms;
  }

  lemma {:induction false} NextRecord(b: Text, i: nat)
    requires Whole(|b|) && Whole(i) && i < |b|
    ensures i + RECORD <= |b| && Whole(i + RECORD)
    ensures ImpactTerms(b[..i + RECORD]) == ImpactTerms(b[..i]) + [RecordOf(b[i..i + RECORD])]
  {
    hide Whole, RecordOf;
    WholeSteps(i);
    WholeGap(i, |b|);
    var front := b[..i + RECORD];
    assert front[..i] == b[..i] && front[i..] == b[i..i + RECORD];
    assert |front| - RECORD == i;
  }

  method DecodeImpact(b: Text) returns (r: Option<seq<Term>>)
    ensures r.Some? <==> Whole(|b|)
    ensures r.Some? ==> r.value == ImpactTerms(b)
  {
    if |b| % RECORD != 0 {
      return None;
    }
    hide RecordOf, ImpactTerms;
    var terms: seq<Term> := [];
    var i := 0;
    NoTerms();
    while i < |b|
      invariant 0 <= i <= |b| && Whole(i)
      invariant terms == ImpactTerms(b[..i])
      decreases |b| - i
    {
      NextRecord(b, i);
      terms := terms + [RecordOf(b[i..i + RECORD])];
      i := i + RECORD;
    }
    assert b[..|b|] == b;
    return Some(terms);
  }

  lemma {:induction false} NoTerms()
    ensures Whole(0) && ImpactTerms([]) == []
  {
  }

  lemma {:induction false} LowByte(a: Byte, high: nat)
    ensures Little(a, high) % 256 == a && Little(a, high) / 256 == high
  {
  }

  // A record determines its term, and the term its record.
  lemma {:induction false} RecordRoundTrip(t: Term)
    ensures RecordOf(RecordBytes(t)) == t
  {
  }

  lemma {:induction false} BytesRoundTrip(b: Text)
    requires |b| == RECORD
    ensures RecordBytes(RecordOf(b)) == b
  {
    LowByte(b[2], b[3]);
    LowByte(b[1], Little(b[2], b[3]));
    LowByte(b[0], Little(b[1], Little(b[2], b[3])));
  }

  // Encoding and decoding undo each other, on all term lists and on all payloads of whole records.
  lemma {:induction false} EncodeDecode(terms: seq<Term>)
    ensures Whole(|ImpactBytes(terms)|) && ImpactTerms(ImpactBytes(terms)) == terms
  {
    hide Whole, RecordBytes, RecordOf;
    if terms == [] {
      NoTerms();
    } else {
      var init, last := terms[..|terms| - 1], terms[|terms| - 1];
      EncodeDecode(init);
      RecordLength(last);
      RecordRoundTrip(last);
      WholeSteps(|ImpactBytes(init)|);
      TermsOfMore(ImpactBytes(init), RecordBytes(last));
      assert terms == init + [last];
    }
  }

  lemma {:induction false} RecordLength(t: Term)
    ensures |RecordBytes(t)| == RECORD
  {
  }

  lemma {:induction false} TermsOfMore(b: Text, record: Text)
    requires Whole(|b|) && |record| == RECORD
    ensures Whole(|b + record|) && ImpactTerms(b + record) == ImpactTerms(b) + [RecordOf(record)]
  {
    hide Whole, RecordOf;
    WholeSteps(|b|);
    var more := b + record;
    assert more[..|more| - RECORD] == b && more[|more| - RECORD..] == record;
  }

  lemma {:induction false} DecodeEncode(b: Text)
    requires Whole(|b|)
    ensures ImpactBytes(ImpactTerms(b)) == b
  {
    hide Whole, RecordBytes, RecordOf;
    if b == [] {
      NoTerms();
    } else {
      WholeSteps(|b|);
      var init, last := b[..|b| - RECORD], b[|b| - RECORD..];
      DecodeEncode(init);
      BytesRoundTrip(last);
      var terms := ImpactTerms(b);
      assert terms[..|terms| - 1] == ImpactTerms(init) && terms[|terms| - 1] == RecordOf(last);
      assert b == init + last;
    }
  }

  // ---------- weights ----------

  const MAX_WEIGHT := 255

  // A weight on the scale from 0 to 255; values outside 0 to maxW are cut off.
  function ImpactWeight(w: real, maxW: real): (r: int)
    ensures 0 <= r <= MAX_WEIGHT
  {
    if maxW <= 0.0 || w <= 0.0 then 0
    else if w >= maxW then MAX_WEIGHT
    else
      var x := w * 255.0 / maxW;
      ScaledWeight(w, maxW);
      RoundIsBetween(x, 255);
      Round(x)
  }

  lemma {:induction false} ScaledWeight(w: real, maxW: real)
    requires 0.0 < w < maxW
    ensures 0.0 <= w * 255.0 / maxW <= 255.0
  {
    var scaled := w * 255.0;
    var x := scaled / maxW;
    Undivide(scaled, maxW);
    assert x * maxW == scaled;
    Cancel(0.0, x, maxW);
    Cancel(x, 255.0, maxW);
  }

  lemma {:induction false} RoundIsBetween(x: real, n: int)
    requires 0.0 <= x <= n as real
    ensures 0 <= Round(x) <= n
  {
  }

  lemma {:induction false} RoundGrows(x: real, y: real)
    requires 0.0 <= x <= y
    ensures Round(x) <= Round(y)
  {
  }

  // A larger value never has a smaller weight.
  lemma {:induction false} WeightsKeepOrder(v: real, w: real, maxW: real)
    requires v <= w
    ensures ImpactWeight(v, maxW) <= ImpactWeight(w, maxW)
  {
    if 0.0 < v && w < maxW {
      ScaledWeight(v, maxW);
      ScaledWeight(w, maxW);
      Undivide(v * 255.0, maxW);
      Undivide(w * 255.0, maxW);
      var x, y := v * 255.0 / maxW, w * 255.0 / maxW;
      assert x * maxW == v * 255.0 && y * maxW == w * 255.0;
      Cancel(x, y, maxW);
      RoundGrows(x, y);
    }
  }

  // Nothing at or below zero, everything at or above the largest weight, and in between the
  // nearest of the 255 steps: a weight on a step is that step.
  lemma {:induction false} WeightIsNearest(w: real, maxW: real)
    ensures maxW <= 0.0 || w <= 0.0 ==> ImpactWeight(w, maxW) == 0
    ensures 0.0 < maxW <= w ==> ImpactWeight(w, maxW) == 255
    ensures 0.0 < w < maxW ==> -maxW <= 2.0 * (ImpactWeight(w, maxW) as real * maxW - 255.0 * w) <= maxW
  {
    if 0.0 < w < maxW {
      var scaled := w * 255.0;
      var x := scaled / maxW;
      ScaledWeight(w, maxW);
      Undivide(scaled, maxW);
      var r := Round(x);
      assert r as real - 0.5 <= x <= r as real + 0.5;
      Grows(r as real - 0.5, x, maxW);
      Grows(x, r as real + 0.5, maxW);
      assert (r as real - 0.5) * maxW == r as real * maxW - 0.5 * maxW;
      assert (r as real + 0.5) * maxW == r as real * maxW + 0.5 * maxW;
    }
  }
}
