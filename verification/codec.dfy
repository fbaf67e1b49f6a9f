// Symmetric int8 quantization, with one scale for a block.
module Codec {
  import opened Basics
  import opened Bytes
  import opened RealArithmetic

  // The largest finite float32: (2 - 2^-23) * 2^127.
  const MAX_FLOAT32 := 340282346638528859811704183484516925440.0

  // ---------- rounding and signed bytes ----------

  function Abs(x: real): real {
    if x < 0.0 then -x else x
  }

  // To the nearest integer, halves away from zero.
  function Round(x: real): int {
    if x >= 0.0 then (x + 0.5).Floor else -((-x + 0.5).Floor)
  }

  function ToByte(q: int): Byte
    requires -128 <= q <= 127
  {
    if q < 0 then q + 256 else q
  }

  function FromByte(b: Byte): int {
    if b >= 128 then b - 256 else b
  }

  function Clamp(q: int): (r: int)
    ensures -127 <= r <= 127
  {
    if q > 127 then 127 else if q < -127 then -127 else q
  }

  function CodeByte(q: int): Byte {
    ToByte(Clamp(q))
  }

  // Two's complement both ways.
  lemma {:induction false} SignedBytesSurvive(q: int, b: Byte)
    ensures -128 <= q <= 127 ==> FromByte(ToByte(q)) == q
    ensures -128 <= FromByte(b) <= 127 && ToByte(FromByte(b)) == b
  {
  }

  lemma {:induction false} CodeByteKeeps(q: int)
    requires -127 <= q <= 127
    ensures FromByte(CodeByte(q)) == q && (CodeByte(q) == 0 <==> q == 0)
  {
  }

  lemma {:induction false} RoundIsNear(x: real)
    ensures Abs(Round(x) as real - x) <= 0.5
    ensures -127.0 <= x <= 127.0 ==> -127 <= Round(x) <= 127
  {
  }

  lemma {:induction false} RoundOfInteger(q: int)
    ensures Round(q as real) == q
  {
  }

  // ---------- specification ----------

  // The largest absolute value; 0 for an empty vector.
  function MaxAbs(v: seq<real>): (m: real)
    ensures m >= 0.0 && forall i :: 0 <= i < |v| ==> Abs(v[i]) <= m
    ensures m > 0.0 ==> exists i :: 0 <= i < |v| && Abs(v[i]) == m
  {
    if v == [] then 0.0
    else
      var rest, a := MaxAbs(v[..|v| - 1]), Abs(v[|v| - 1]);
      if a > rest then a else rest
  }

  function ScaleFor(maxAbs: real): real
    requires maxAbs >= 0.0
  {
    if maxAbs == 0.0 then 0.0
    else if 127.0 / maxAbs > MAX_FLOAT32 then MAX_FLOAT32
    else 127.0 / maxAbs
  }

  // The scale did not have to be clamped.
  predicate Unclamped(maxAbs: real) {
    maxAbs > 0.0 && 127.0 / maxAbs <= MAX_FLOAT32
  }

  // A block: the scale of its header, then one byte for each element.
  datatype Block = Block(scale: real, payload: seq<Byte>)

  function CodeOf(x: real, scale: real): int {
    Round(x * scale)
  }

  function Coded(v: seq<real>, scale: real): seq<Byte> {
    seq(|v|, i requires 0 <= i < |v| => CodeByte(CodeOf(v[i], scale)))
  }

  function Quantized(v: seq<real>): Block {
    Block(ScaleFor(MaxAbs(v)), Coded(v, ScaleFor(MaxAbs(v))))
  }

  function ValueOf(q: int, scale: real): real {
    if scale == 0.0 then 0.0 else q as real / scale
  }

  function Decoded(payload: seq<Byte>, scale: real): seq<real> {
    seq(|payload|, i requires 0 <= i < |payload| => ValueOf(FromByte(payload[i]), scale))
  }

  function Dequantized(b: Block): seq<real> {
    Decoded(b.payload, b.scale)
  }

  // ---------- the code ----------

  method QuantScale(v: seq<real>) returns (scale: real)
    ensures scale == ScaleFor(MaxAbs(v))
  {
    var maxAbs := 0.0;
    for i := 0 to |v|
      invariant maxAbs == MaxAbs(v[..i])
    {
      assert v[..i + 1][..i] == v[..i];
      if Abs(v[i]) > maxAbs {
        maxAbs := Abs(v[i]);
      }
    }
    assert v[..|v|] == v;
    if !(maxAbs > 0.0) {
      return 0.0;
    }
    var s := 127.0 / maxAbs;
    if s > MAX_FLOAT32 {
      return MAX_FLOAT32;
    }
    return s;
  }

  method QuantizeElement(x: real, scale: real) returns (b: Byte)
    ensures b == CodeByte(CodeOf(x, scale))
  {
    var q := Round(x * scale);
    if q > 127 {
      q := 127;
    } else if q < -127 {
      q := -127;
    }
    b := ToByte(q);
  }

  method QuantizeElements(v: seq<real>, scale: real) returns (out: array<Byte>)
    ensures fresh(out) && out[..] == Coded(v, scale)
  {
    out := new Byte[|v|];
    ghost var codes := Coded(v, scale);
    for i := 0 to |v|
      invariant forall k :: 0 <= k < i ==> out[k] == codes[k]
    {
      out[i] := QuantizeElement(v[i], scale);
    }
  }

  method QuantizeF32(v: seq<real>) returns (scale: real, out: array<Byte>)
    ensures fresh(out) && Block(scale, out[..]) == Quantized(v)
  {
    scale := QuantScale(v);
    out := QuantizeElements(v, scale);
  }

  method DequantizeI8(scale: real, q: array<Byte>, dim: int) returns (out: Option<array<real>>)
    ensures out.Some? <==> dim == q.Length
    ensures out.Some? ==> fresh(out.value) && out.value[..] == Decoded(q[..], scale)
  {
    if dim < 0 || q.Length != dim {
      return None;
    }
    var r := new real[dim];
    ghost var values := Decoded(q[..], scale);
    for i := 0 to dim
      invariant forall k :: 0 <= k < i ==> r[k] == values[k]
    {
      r[i] := if scale == 0.0 then 0.0 else FromByte(q[i]) as real / scale;
    }
    return Some(r);
  }

  // Matrices in row-major order are one block.
  method QuantizeMulti(mat: seq<real>, dim: int) returns (ok: bool, scale: real, out: array<Byte>)
    ensures ok <==> dim > 0 && |mat| % dim == 0
    ensures ok ==> Block(scale, out[..]) == Quantized(mat)
  {
    scale, out := 0.0, new Byte[0];
    ok := dim > 0 && |mat| % dim == 0;
    if ok {
      scale, out := QuantizeF32(mat);
    }
  }

  // A matrix back from its block, if the payload has its shape.
  method DequantizeMulti(scale: real, q: array<Byte>, rows: int, dim: int) returns (out: Option<array<real>>)
    ensures out.Some? <==> rows >= 0 && dim > 0 && q.Length == rows * dim
    ensures out.Some? ==> fresh(out.value) && out.value[..] == Decoded(q[..], scale)
  {
    if rows < 0 || dim <= 0 {
      return None;
    }
    ShapeFits(q.Length, rows, dim);
    if q.Length % dim != 0 || q.Length / dim != rows {
      return None;
    }
    out := DequantizeI8(scale, q, q.Length);
  }

  lemma {:induction false} ShapeFits(length: nat, rows: int, dim: nat)
    requires dim > 0
    ensures length % dim == 0 && length / dim == rows <==> length == rows * dim
  {
    var q, r := length / dim, length % dim;
    assert length == q * dim + r && 0 <= r < dim;
    if length == rows * dim {
      assert (rows - q) * dim == rows * dim - q * dim;
      MultipleIsFar(rows - q, dim);
    }
  }

  // A non-zero multiple of dim is at least as far from zero as dim.
  lemma {:induction false} MultipleIsFar(d: int, dim: int)
    requires dim >= 0
    ensures d >= 1 ==> d * dim >= dim
    ensures d <= -1 ==> d * dim <= -dim
  {
    if d >= 1 {
      assert d * dim == (d - 1) * dim + dim && (d - 1) * dim >= 0;
    } else if d <= -1 {
      assert d * dim == (d + 1) * dim - dim && (d + 1) * dim <= 0;
    }
  }

  // ---------- scales ----------

  // A scale that keeps values up to max within the bytes, and one that uses them fully.
  predicate Suits(max: real, s: real) {
    s >= 0.0 && max * s <= 127.0
  }

  predicate Fills(max: real, s: real) {
    max * s == 127.0
  }

  lemma {:induction false} AbsBounds(x: real, max: real)
    requires Abs(x) <= max
    ensures -max <= x <= max
  {
  }

  // A scaled value stays within the range of the bytes if the scale is no more than 127 / max.
  lemma {:induction false} ScaledRange(x: real, max: real, s: real)
    requires Abs(x) <= max && Suits(max, s)
    ensures -127 <= CodeOf(x, s) <= 127
  {
    AbsBounds(x, max);
    Grows(x, max, s);
    Grows(-max, x, s);
    NegatedProduct(max, s);
    var y, top := x * s, max * s;
    assert -top <= y <= top <= 127.0;
    RoundIsNear(y);
  }

  lemma {:induction false} ScaleIsSmall(max: real)
    requires max >= 0.0
    ensures Suits(max, ScaleFor(max)) && (max > 0.0 <==> ScaleFor(max) > 0.0) && 0.0 <= ScaleFor(max) <= MAX_FLOAT32
    ensures Unclamped(max) ==> max > 0.0 && Fills(max, ScaleFor(max))
    ensures max > 0.0 && !Unclamped(max) ==> ScaleFor(max) == MAX_FLOAT32
  {
    if max > 0.0 {
      Undivide(127.0, max);
      QuotientPositive(127.0, max);
      if !Unclamped(max) {
        Grows(MAX_FLOAT32, 127.0 / max, max);
      }
    }
  }

  // ---------- error bound ----------

  // Rounding loses at most half a step.
  lemma {:induction false} StepError(x: real, s: real)
    requires s > 0.0
    ensures Abs(x - ValueOf(CodeOf(x, s), s)) <= 0.5 / s
  {
    RoundIsNear(x * s);
    var q := CodeOf(x, s) as real;
    var z, e := q / s, 0.5 / s;
    Undivide(q, s);
    Undivide(0.5, s);
    assert (x - z) * s == x * s - z * s;
    assert (z - x) * s == z * s - x * s;
    Cancel(x - z, e, s);
    Cancel(z - x, e, s);
  }

  lemma {:induction false} HalfStep(max: real, s: real)
    requires max > 0.0 && s > 0.0 && Fills(max, s)
    ensures 0.5 / s == max / 254.0
  {
    Undivide(0.5, s);
    var e, m := 0.5 / s, max / 254.0;
    assert m * s == max * s / 254.0;
    Cancel(e, m, s);
    Cancel(m, e, s);
  }

  lemma {:induction false} DecodedAt(v: seq<real>, s: real, i: nat)
    requires i < |v| && -127 <= CodeOf(v[i], s) <= 127
    ensures Decoded(Coded(v, s), s)[i] == ValueOf(CodeOf(v[i], s), s)
  {
    CodeByteKeeps(CodeOf(v[i], s));
  }

  lemma {:induction false} ElementError(v: seq<real>, s: real, max: real, i: nat)
    requires i < |v| && Abs(v[i]) <= max && s > 0.0 && Suits(max, s)
    ensures Abs(v[i] - Decoded(Coded(v, s), s)[i]) <= 0.5 / s
  {
    hide CodeOf, ValueOf, Suits;
    ScaledRange(v[i], max, s);
    DecodedAt(v, s, i);
    StepError(v[i], s);
  }

  lemma {:induction false} NoScale(payload: seq<Byte>, i: nat)
    requires i < |payload|
    ensures Decoded(payload, 0.0)[i] == 0.0
  {
  }

  // Every element comes back within half a step of its block, which is max|v|/254 unless
  // the scale had to be clamped.
  lemma {:induction false} RoundTripError(v: seq<real>, i: nat)
    requires i < |v|
    ensures |Dequantized(Quantized(v))| == |v|
    ensures MaxAbs(v) == 0.0 ==> v[i] == 0.0 && Dequantized(Quantized(v))[i] == 0.0
    ensures MaxAbs(v) > 0.0 ==>
              Quantized(v).scale > 0.0 && Abs(v[i] - Dequantized(Quantized(v))[i]) <= 0.5 / Quantized(v).scale
    ensures Unclamped(MaxAbs(v)) ==> Abs(v[i] - Dequantized(Quantized(v))[i]) <= MaxAbs(v) / 254.0
  {
    hide ScaleFor, ValueOf, CodeOf, Unclamped, Suits, Fills;
    var max := MaxAbs(v);
    ScaleIsSmall(max);
    if max == 0.0 {
      NoScale(Coded(v, 0.0), i);
    } else {
      ElementError(v, ScaleFor(max), max, i);
      if Unclamped(max) {
        HalfStep(max, ScaleFor(max));
      }
    }
  }

  // ---------- quantizing again ----------

  // Whether anything but zero codes is in the payload.
  predicate HasCode(payload: seq<Byte>) {
    exists i :: 0 <= i < |payload| && payload[i] != 0
  }

  // The largest code.
  function LargestOf(payload: seq<Byte>): (m: int)
    requires forall i :: 0 <= i < |payload| ==> -127 <= FromByte(payload[i]) <= 127
    ensures 0 <= m <= 127 && forall i :: 0 <= i < |payload| ==> -m <= FromByte(payload[i]) <= m
    ensures m > 0 ==> exists i :: 0 <= i < |payload| && (FromByte(payload[i]) == m || FromByte(payload[i]) == -m)
  {
    if payload == [] then 0
    else
      var rest, q := LargestOf(payload[..|payload| - 1]), FromByte(payload[|payload| - 1]);
      if q > rest then q else if -q > rest then -q else rest
  }

  // x is y steps of scale s.
  predicate InSteps(x: real, s: real, y: real) {
    x * s == y
  }

  lemma {:induction false} StepsOrder(x: real, y: real, s: real, m: real, n: real)
    requires s > 0.0 && InSteps(x, s, m) && InSteps(y, s, n)
    ensures x <= y <==> m <= n
    ensures x > 0.0 <==> m > 0.0
  {
    if x <= y {
      Grows(x, y, s);
    } else {
      Positive(x - y, s);
    }
    Positive(x, s);
    Positive(-x, s);
  }

  lemma {:induction false} ValueTimesScale(q: int, s: real)
    requires s > 0.0
    ensures InSteps(ValueOf(q, s), s, q as real) && InSteps(Abs(ValueOf(q, s)), s, Abs(q as real))
  {
    var z := ValueOf(q, s);
    Undivide(q as real, s);
    Positive(Abs(z), s);
    assert (-z) * s == -(z * s);
  }

  lemma {:induction false} CodeComesBack(b: Byte, s: real)
    requires s > 0.0 && -127 <= FromByte(b)
    ensures CodeByte(CodeOf(ValueOf(FromByte(b), s), s)) == b
  {
    ValueTimesScale(FromByte(b), s);
    RoundOfInteger(FromByte(b));
  }

  // The largest reconstructed value, in steps, is the largest code.
  lemma {:induction false} LargestReconstructed(payload: seq<Byte>, s: real)
    requires s > 0.0 && forall i :: 0 <= i < |payload| ==> -127 <= FromByte(payload[i]) <= 127
    requires LargestOf(payload) > 0
    ensures InSteps(MaxAbs(Decoded(payload, s)), s, LargestOf(payload) as real) && MaxAbs(Decoded(payload, s)) > 0.0
  {
    hide ValueOf, InSteps;
    var r, m := Decoded(payload, s), LargestOf(payload);
    var max := MaxAbs(r);
    var i :| 0 <= i < |payload| && (FromByte(payload[i]) == m || FromByte(payload[i]) == -m);
    ValueTimesScale(FromByte(payload[i]), s);
    StepsOrder(Abs(r[i]), Abs(r[i]), s, m as real, m as real);
    assert max > 0.0;
    var k :| 0 <= k < |r| && Abs(r[k]) == max;
    ValueTimesScale(FromByte(payload[k]), s);
    StepsOrder(Abs(r[i]), max, s, m as real, Abs(FromByte(payload[k]) as real));
  }

  lemma {:induction false} SameScale(max: real, s: real, m: int)
    requires max > 0.0 && 0.0 < s <= MAX_FLOAT32 && InSteps(max, s, m as real) && 0 < m <= 127
    requires m == 127 || s == MAX_FLOAT32
    ensures ScaleFor(max) == s
  {
    var t := 127.0 / max;
    Undivide(127.0, max);
    assert s * max == m as real;
    Cancel(s, t, max);
    if m == 127 {
      Cancel(t, s, max);
    }
  }

  // With an unclamped scale the largest element has the largest code.
  lemma {:induction false} LargestCode(x: real, max: real, s: real)
    requires Abs(x) == max && Fills(max, s)
    ensures CodeOf(x, s) == 127 || CodeOf(x, s) == -127
  {
    RoundOfInteger(127);
    RoundOfInteger(-127);
    assert x * s == max * s || x * s == -(max * s);
  }

  ghost predicate InRange(v: seq<real>, s: real) {
    forall i :: 0 <= i < |v| ==> -127 <= CodeOf(v[i], s) <= 127
  }

  lemma {:induction false} CodesInRange(v: seq<real>)
    ensures InRange(v, ScaleFor(MaxAbs(v)))
  {
    hide CodeOf, ScaleFor, Suits, Fills, Unclamped;
    var s := ScaleFor(MaxAbs(v));
    ScaleIsSmall(MaxAbs(v));
    forall i | 0 <= i < |v| ensures -127 <= CodeOf(v[i], s) <= 127 {
      ScaledRange(v[i], MaxAbs(v), s);
    }
  }

  lemma {:induction false} PayloadInRange(v: seq<real>, s: real)
    requires InRange(v, s)
    ensures forall i :: 0 <= i < |v| ==>
              FromByte(Coded(v, s)[i]) == CodeOf(v[i], s) && -127 <= FromByte(Coded(v, s)[i]) <= 127
  {
    forall i | 0 <= i < |v|
      ensures FromByte(Coded(v, s)[i]) == CodeOf(v[i], s) && -127 <= FromByte(Coded(v, s)[i]) <= 127
    {
      CodeByteKeeps(CodeOf(v[i], s));
    }
  }

  // An unclamped block holds a code of full size.
  lemma {:induction false} UnclampedHasFullCode(v: seq<real>)
    requires Unclamped(MaxAbs(v))
    ensures exists i ::
              0 <= i < |v|
              && (FromByte(Quantized(v).payload[i]) == 127 || FromByte(Quantized(v).payload[i]) == -127)
  {
    hide CodeOf, ScaleFor, Unclamped, Suits, Fills;
    var s := ScaleFor(MaxAbs(v));
    ScaleIsSmall(MaxAbs(v));
    var j :| 0 <= j < |v| && Abs(v[j]) == MaxAbs(v);
    LargestCode(v[j], MaxAbs(v), s);
    CodeByteKeeps(CodeOf(v[j], s));
    assert FromByte(Quantized(v).payload[j]) == CodeOf(v[j], s);
  }

  lemma {:induction false} RecodedSame(payload: seq<Byte>, s: real)
    requires s > 0.0 && forall i :: 0 <= i < |payload| ==> -127 <= FromByte(payload[i]) <= 127
    ensures Coded(Decoded(payload, s), s) == payload
  {
    forall i | 0 <= i < |payload| ensures Coded(Decoded(payload, s), s)[i] == payload[i] {
      CodeComesBack(payload[i], s);
    }
  }

  // A block with a code in it comes back identical.
  lemma {:induction false} RequantizeSame(payload: seq<Byte>, s: real)
    requires 0.0 < s <= MAX_FLOAT32 && HasCode(payload)
    requires forall i :: 0 <= i < |payload| ==> -127 <= FromByte(payload[i]) <= 127
    requires s == MAX_FLOAT32
             || exists i :: 0 <= i < |payload| && (FromByte(payload[i]) == 127 || FromByte(payload[i]) == -127)
    ensures Quantized(Decoded(payload, s)) == Block(s, payload)
  {
    hide ScaleFor, ValueOf, CodeOf, InSteps;
    var k :| 0 <= k < |payload| && payload[k] != 0;
    assert FromByte(payload[k]) != 0;
    LargestReconstructed(payload, s);
    SameScale(MaxAbs(Decoded(payload, s)), s, LargestOf(payload));
    RecodedSame(payload, s);
  }

  lemma {:induction false} ZerosHaveNoScale(v: seq<real>)
    requires forall i :: 0 <= i < |v| ==> v[i] == 0.0
    ensures MaxAbs(v) == 0.0
  {
  }

  // A block without a code reconstructs zeros.
  lemma {:induction false} NoCodeMeansZeros(payload: seq<Byte>, s: real)
    requires !HasCode(payload)
    ensures MaxAbs(Decoded(payload, s)) == 0.0
  {
    forall i | 0 <= i < |payload| ensures Decoded(payload, s)[i] == 0.0 {
      assert payload[i] == 0;
    }
    ZerosHaveNoScale(Decoded(payload, s));
  }

  lemma {:induction false} NoScaleMeansZeros(payload: seq<Byte>)
    ensures MaxAbs(Decoded(payload, 0.0)) == 0.0
  {
    ZerosHaveNoScale(Decoded(payload, 0.0));
  }

  lemma {:induction false} NoScaleCodesZero(v: seq<real>)
    ensures |Coded(v, 0.0)| == |v| && !HasCode(Coded(v, 0.0))
  {
    forall i | 0 <= i < |v| ensures Coded(v, 0.0)[i] == 0 {
      RoundOfInteger(0);
      assert v[i] * 0.0 == 0.0;
    }
  }

  lemma {:induction false} NoCodesAlike(a: seq<Byte>, b: seq<Byte>)
    requires |a| == |b| && !HasCode(a) && !HasCode(b)
    ensures a == b
  {
    forall i | 0 <= i < |a| ensures a[i] == b[i] {
      assert a[i] == 0 && b[i] == 0;
    }
  }

  // A value of at least half a step.
  predicate HalfStepAtLeast(x: real, s: real) {
    x * s >= 0.5
  }

  // The largest element is at least half a step of its block.
  predicate Visible(max: real)
    requires max >= 0.0
  {
    HalfStepAtLeast(max, ScaleFor(max))
  }

  lemma {:induction false} RoundVanishes(x: real)
    ensures Round(x) == 0 <==> -0.5 < x < 0.5
  {
    var y := if x >= 0.0 then x + 0.5 else -x + 0.5;
    var f := y.Floor;
    assert Round(x) == if x >= 0.0 then f else -f;
    assert f as real <= y < f as real + 1.0;
  }

  predicate Reaches(x: real, s: real) {
    HalfStepAtLeast(Abs(x), s)
  }

  // The code of an element is zero exactly if it is less than half a step.
  lemma {:induction false} CodeVanishes(x: real, s: real)
    requires s >= 0.0
    ensures CodeOf(x, s) != 0 <==> Reaches(x, s)
  {
    NegatedProduct(x, s);
    Positive(Abs(x), s);
    RoundVanishes(x * s);
  }

  // A block has a code exactly if its largest element is visible.
  lemma {:induction false} HasCodeIfVisible(v: seq<real>)
    ensures HasCode(Quantized(v).payload) <==> Visible(MaxAbs(v))
  {
    hide CodeOf, ScaleFor, Reaches, HalfStepAtLeast, CodeByte, Suits, MaxAbs;
    var s, payload := ScaleFor(MaxAbs(v)), Quantized(v).payload;
    ScaleIsSmall(MaxAbs(v));
    CodesInRange(v);
    forall i | 0 <= i < |v| ensures payload[i] != 0 <==> Reaches(v[i], s) {
      CodeVanishes(v[i], s);
      CodeByteKeeps(CodeOf(v[i], s));
    }
    VisibleElement(v, s);
  }

  // Some element reaches half a step exactly if the largest one does.
  lemma {:induction false} VisibleElement(v: seq<real>, s: real)
    requires s >= 0.0
    ensures HalfStepAtLeast(MaxAbs(v), s) <==> exists i :: 0 <= i < |v| && Reaches(v[i], s)
  {
    hide MaxAbs, Reaches, HalfStepAtLeast;
    forall i | 0 <= i < |v| && Reaches(v[i], s) ensures HalfStepAtLeast(MaxAbs(v), s) {
      LargerReaches(v[i], MaxAbs(v), s);
    }
    if HalfStepAtLeast(MaxAbs(v), s) {
      ZeroReachesNothing(MaxAbs(v), s);
      var j :| 0 <= j < |v| && Abs(v[j]) == MaxAbs(v);
      LargestReaches(v[j], MaxAbs(v), s);
    }
  }

  lemma {:induction false} ZeroReachesNothing(max: real, s: real)
    requires HalfStepAtLeast(max, s)
    ensures max != 0.0
  {
    Positive(max, s);
  }

  lemma {:induction false} LargerReaches(x: real, max: real, s: real)
    requires s >= 0.0 && Abs(x) <= max && Reaches(x, s)
    ensures HalfStepAtLeast(max, s)
  {
    Grows(Abs(x), max, s);
  }

  lemma {:induction false} LargestReaches(x: real, max: real, s: real)
    requires Abs(x) == max && HalfStepAtLeast(max, s)
    ensures Reaches(x, s)
  {
  }

  // Quantizing what was reconstructed gives the identical block exactly if the vector is zero
  // or its largest element is visible; an unclamped scale always makes it so.
  lemma {:induction false} RequantizeIsIdentity(v: seq<real>)
    ensures Quantized(Dequantized(Quantized(v))) == Quantized(v) <==> MaxAbs(v) == 0.0 || Visible(MaxAbs(v))
    ensures Unclamped(MaxAbs(v)) ==> Visible(MaxAbs(v))
  {
    HasCodeIfVisible(v);
    RequantizeIfCode(v);
  }

  // It is not always so: this vector is not zero, but its clamped scale is lost.
  lemma {:induction false} RequantizeCanFail()
    ensures var v := [1.0 / 4000000000000000000000000000000000000000.0];
            MaxAbs(v) > 0.0 && Quantized(v).scale == MAX_FLOAT32
            && Quantized(Dequantized(Quantized(v))) != Quantized(v)
  {
    var x := 1.0 / 4000000000000000000000000000000000000000.0;
    assert [x][..0] == [];
    assert MaxAbs([x]) == x;
    assert 127.0 / x > MAX_FLOAT32;
    assert x * MAX_FLOAT32 < 0.5;
    RequantizeIsIdentity([x]);
  }

  lemma {:induction false} RequantizeIfCode(v: seq<real>)
    ensures Quantized(Dequantized(Quantized(v))) == Quantized(v) <==> MaxAbs(v) == 0.0 || HasCode(Quantized(v).payload)
    ensures Unclamped(MaxAbs(v)) ==> HasCode(Quantized(v).payload)
  {
    hide CodeOf, ScaleFor, ValueOf, Unclamped, Suits, Fills;
    var s, payload := ScaleFor(MaxAbs(v)), Quantized(v).payload;
    ScaleIsSmall(MaxAbs(v));
    if Unclamped(MaxAbs(v)) {
      UnclampedHasFullCode(v);
    }
    CodesInRange(v);
    PayloadInRange(v, s);
    if MaxAbs(v) == 0.0 {
      NoScaleMeansZeros(payload);
      ScaleIsSmall(MaxAbs(Decoded(payload, 0.0)));
      NoScaleCodesZero(v);
      NoScaleCodesZero(Decoded(payload, 0.0));
      NoCodesAlike(payload, Coded(Decoded(payload, 0.0), 0.0));
    } else if HasCode(payload) {
      RequantizeSame(payload, s);
    } else {
      NoCodeMeansZeros(payload, s);
      ScaleIsSmall(MaxAbs(Decoded(payload, s)));
    }
  }
}
