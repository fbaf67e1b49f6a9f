// What the inner product and the score compute, told without their loops.
module MaxSimLaws {
  import opened Basics
  import opened SparseVectors
  import opened MaxSimScore

  // ---------- inner products ----------

  // Adding zero and multiplying by zero or one behave as they do for numbers.
  ghost predicate HasUnits(ar: Arith) {
    (forall x :: ar.add(x, 0.0) == x && ar.add(0.0, x) == x)
    && (forall x :: ar.mul(x, 0.0) == 0.0 && ar.mul(0.0, x) == 0.0)
    && forall x :: ar.mul(x, 1.0) == x && ar.mul(1.0, x) == x
  }

  ghost predicate IsReal(ar: Arith) {
    (forall x, y :: ar.add(x, y) == x + y) && forall x, y :: ar.mul(x, y) == x * y
  }

  // The row with one at position j and zero elsewhere.
  function Unit(n: nat, j: nat): seq<real> {
    seq(n, i => if i == j then 1.0 else 0.0)
  }

  lemma {:induction false} DotToUnit(ar: Arith, a: seq<real>, j: nat, n: nat)
    requires HasUnits(ar) && j < |a| && n <= |a|
    ensures DotTo(ar, a, Unit(|a|, j), n) == if j < n then a[j] else 0.0
  {
    if n > 0 {
      DotToUnit(ar, a, j, n - 1);
      var unit, before, x := Unit(|a|, j), DotTo(ar, a, Unit(|a|, j), n - 1), a[n - 1];
      assert DotTo(ar, a, unit, n) == ar.add(before, ar.mul(x, unit[n - 1]));
      if n - 1 == j {
        assert unit[n - 1] == 1.0 && ar.mul(x, 1.0) == x && ar.add(0.0, x) == x;
      } else {
        assert unit[n - 1] == 0.0 && ar.mul(x, 0.0) == 0.0 && ar.add(before, 0.0) == before;
      }
    }
  }

  // A unit row picks out one coordinate.
  lemma {:induction false} DotWithUnit(ar: Arith, a: seq<real>, j: nat)
    requires HasUnits(ar) && j < |a|
    ensures DotOf(ar, a, Unit(|a|, j)) == a[j]
  {
    DotToUnit(ar, a, j, |a|);
  }

  lemma {:induction false} DotToSymmetric(ar: Arith, a: seq<real>, b: seq<real>, n: nat)
    requires (forall x, y :: ar.mul(x, y) == ar.mul(y, x)) && n <= |a| == |b|
    ensures DotTo(ar, a, b, n) == DotTo(ar, b, a, n)
  {
    if n > 0 {
      DotToSymmetric(ar, a, b, n - 1);
    }
  }

  lemma {:induction false} DotIsSymmetric(ar: Arith, a: seq<real>, b: seq<real>)
    requires (forall x, y :: ar.mul(x, y) == ar.mul(y, x)) && |a| == |b|
    ensures DotOf(ar, a, b) == DotOf(ar, b, a)
  {
    DotToSymmetric(ar, a, b, |a|);
  }

  // s times a row, plus another.
  function Combined(s: real, b: seq<real>, c: seq<real>): seq<real>
    requires |b| == |c|
  {
    seq(|b|, i requires 0 <= i < |b| => s * b[i] + c[i])
  }

  lemma {:induction false} DotToCombined(ar: Arith, a: seq<real>, s: real, b: seq<real>, c: seq<real>, n: nat)
    requires IsReal(ar) && n <= |a| == |b| == |c|
    ensures DotTo(ar, a, Combined(s, b, c), n) == s * DotTo(ar, a, b, n) + DotTo(ar, a, c, n)
  {
    if n > 0 {
      DotToCombined(ar, a, s, b, c, n - 1);
      var x, y, z := a[n - 1], b[n - 1], c[n - 1];
      assert x * (s * y + z) == s * (x * y) + x * z;
      assert s * (DotTo(ar, a, b, n - 1) + x * y) == s * DotTo(ar, a, b, n - 1) + s * (x * y);
    }
  }

  // For real numbers the inner product is linear; with unit rows that settles it.
  lemma {:induction false} DotIsLinear(ar: Arith, a: seq<real>, s: real, b: seq<real>, c: seq<real>)
    requires IsReal(ar) && |a| == |b| == |c|
    ensures DotOf(ar, a, Combined(s, b, c)) == s * DotOf(ar, a, b) + DotOf(ar, a, c)
  {
    DotToCombined(ar, a, s, b, c, |a|);
  }

  // The norm of a row is its inner product with itself.
  lemma {:induction false} SquareSumIsDot(ar: Arith, a: seq<real>, n: nat)
    requires n <= |a|
    ensures SquareSum(ar, a[..n]) == DotTo(ar, a, a, n)
  {
    if n > 0 {
      SquareSumIsDot(ar, a, n - 1);
      assert a[..n][..n - 1] == a[..n - 1];
    }
  }

  // A matrix is valid if its shape is that of its values and its mask, some row is valid, and
  // every row has the right length: a masked one is zero, and a valid one has an inner product
  // with itself that is not zero, or even near one.
  lemma {:induction false} ValidMatrixSays(ar: Arith, v: TokenMatrix, c: MatrixContract)
    ensures ValidMatrix(ar, v, c) <==>
              v.shape == [|v.values|, c.dimensions] && 1 <= |v.values| <= c.maxTokens && |v.mask| == |v.values|
              && (exists i :: 0 <= i < |v.mask| && v.mask[i])
              && forall i :: 0 <= i < |v.values| ==>
                   var row := v.values[i];
                   |row| == c.dimensions
                   && if v.mask[i]
                      then DotOf(ar, row, row) != 0.0 && (c.unitRows ==> 0.9999 <= DotOf(ar, row, row) <= 1.0001)
                      else forall k :: 0 <= k < |row| ==> row[k] == 0.0
  {
    forall i | 0 <= i < |v.values| ensures SquareSum(ar, v.values[i]) == DotOf(ar, v.values[i], v.values[i]) {
      var row := v.values[i];
      SquareSumIsDot(ar, row, |row|);
      assert row[..|row|] == row;
    }
    if true in v.mask {
      var i :| 0 <= i < |v.mask| && v.mask[i] == true;
      assert v.mask[i];
    }
  }

  // ---------- dense rows and sparse vectors ----------

  // The non-zero entries of the first n positions of a row.
  function SparseTo(row: seq<real>, n: nat): (v: SparseValues)
    requires n <= |row|
    ensures |v.indices| == |v.weights| <= n
    ensures forall k :: 0 <= k < |v.indices| ==> 0 <= v.indices[k] < n && v.weights[k] == row[v.indices[k]] != 0.0
    ensures forall i :: 0 <= i < n && row[i] != 0.0 ==> i in v.indices
    ensures forall i, j :: 0 <= i < j < |v.indices| ==> v.indices[i] < v.indices[j]
  {
    if n == 0 then SparseValues([], [])
    else
      var rest := SparseTo(row, n - 1);
      if row[n - 1] == 0.0 then rest else SparseValues(rest.indices + [n - 1], rest.weights + [row[n - 1]])
  }

  function SparseOf(row: seq<real>): SparseValues {
    SparseTo(row, |row|)
  }

  lemma {:induction false} WeightOfSparse(row: seq<real>, i: nat)
    requires i < |row|
    ensures WeightAt(SparseOf(row), i) == if row[i] == 0.0 then None else Some(row[i])
  {
    var v := SparseOf(row);
    if row[i] != 0.0 {
      var k :| 0 <= k < |v.indices| && v.indices[k] == i;
      assert WeightAt(v, i).Some?;
    }
  }

  // The two lanes agree on what an inner product is: of two rows it is that of their non-zero
  // entries.
  lemma {:induction false} DenseIsSparseTo(ar: Arith, a: seq<real>, b: seq<real>, n: nat)
    requires HasUnits(ar) && n <= |a| == |b|
    ensures DotTo(ar, a, b, n) == Inner(ar, SparseTo(a, n), SparseOf(b))
  {
    hide SparseTo;
    SparseGrows(a, n);
    if n > 0 {
      DenseIsSparseTo(ar, a, b, n - 1);
      OneMorePosition(ar, a, b, n);
    }
  }

  lemma {:induction false} OneMorePosition(ar: Arith, a: seq<real>, b: seq<real>, n: nat)
    requires HasUnits(ar) && 0 < n <= |a| == |b|
    requires DotTo(ar, a, b, n - 1) == Inner(ar, SparseTo(a, n - 1), SparseOf(b))
    ensures DotTo(ar, a, b, n) == Inner(ar, SparseTo(a, n), SparseOf(b))
  {
    hide SparseTo, Inner, WeightAt, Ordered;
    var x, y, before := a[n - 1], b[n - 1], DotTo(ar, a, b, n - 1);
    SparseGrows(a, n);
    WeightOfSparse(b, n - 1);
    assert DotTo(ar, a, b, n) == ar.add(before, ar.mul(x, y));
    if x != 0.0 {
      OneMoreEntry(ar, SparseTo(a, n - 1), n - 1, x, SparseOf(b));
    }
  }

  lemma {:induction false} SparseGrows(row: seq<real>, n: nat)
    requires n <= |row|
    ensures n == 0 ==> SparseTo(row, n) == SparseValues([], [])
    ensures n > 0 && row[n - 1] == 0.0 ==> SparseTo(row, n) == SparseTo(row, n - 1)
    ensures n > 0 && row[n - 1] != 0.0 ==> SparseTo(row, n) == WithEntry(SparseTo(row, n - 1), n - 1, row[n - 1])
  {
  }

  function WithEntry(v: SparseValues, token: int, weight: real): SparseValues {
    SparseValues(v.indices + [token], v.weights + [weight])
  }

  lemma {:induction false} OneMoreEntry(ar: Arith, q: SparseValues, token: int, weight: real, v: SparseValues)
    requires |q.indices| == |q.weights| && |v.indices| == |v.weights|
    ensures var w := WeightAt(v, token);
            Inner(ar, WithEntry(q, token, weight), v)
            == if w.None? then Inner(ar, q, v) else ar.add(Inner(ar, q, v), ar.mul(weight, w.value))
  {
    PartialOfFront(ar, q, WithEntry(q, token, weight), v, |q.indices|);
  }

  lemma {:induction false} PartialOfFront(ar: Arith, p: SparseValues, q: SparseValues, v: SparseValues, n: nat)
    requires |p.indices| == |p.weights| && |q.indices| == |q.weights| && |v.indices| == |v.weights|
    requires p.indices <= q.indices && p.weights <= q.weights && n <= |p.indices|
    ensures Partial(ar, p, v, n) == Partial(ar, q, v, n)
  {
    if n > 0 {
      PartialOfFront(ar, p, q, v, n - 1);
    }
  }

  lemma {:induction false} DenseIsSparse(ar: Arith, a: seq<real>, b: seq<real>)
    requires HasUnits(ar) && |a| == |b|
    ensures DotOf(ar, a, b) == Inner(ar, SparseOf(a), SparseOf(b))
  {
    DenseIsSparseTo(ar, a, b, |a|);
  }

  // ---------- scores ----------

  // The mean is the sum over the valid query rows divided by their number.
  lemma {:induction false} MeanOfSum(ar: Arith, q: TokenMatrix, d: TokenMatrix, c: MatrixContract)
    requires Comparable(q, d, c.dimensions) && true in q.mask
    ensures Count(q.mask) > 0
    ensures Score(ar, q, d, c.(mean := true)) * (Count(q.mask) as real) == Score(ar, q, d, c.(mean := false))
    ensures Count(q.mask) == |set i | 0 <= i < |q.mask| && q.mask[i]|
  {
    CountPositive(q.mask);
    CountsValid(q.mask);
    Undivided(Score(ar, q, d, c.(mean := false)), Count(q.mask) as real);
  }

  lemma {:induction false} Undivided(x: real, y: real)
    requires y != 0.0
    ensures (x / y) * y == x
  {
  }

  lemma {:induction false} CountsValid(mask: seq<bool>)
    ensures Count(mask) == |set i | 0 <= i < |mask| && mask[i]|
  {
    var all := set i | 0 <= i < |mask| && mask[i];
    if mask == [] {
      assert all == {};
    } else {
      var init, last := mask[..|mask| - 1], |mask| - 1;
      CountsValid(init);
      var before := set i | 0 <= i < |init| && init[i];
      assert all == if mask[last] then before + {last} else before;
    }
  }

  // Two queries one after the other.
  function Both(q: TokenMatrix, r: TokenMatrix): TokenMatrix {
    TokenMatrix(q.shape, q.values + r.values, q.mask + r.mask)
  }

  lemma {:induction false} SumOfFront(ar: Arith, q: TokenMatrix, r: TokenMatrix, d: TokenMatrix, dimensions: nat,
          n: nat)
    requires Comparable(q, d, dimensions) && Comparable(r, d, dimensions) && n <= |q.mask|
    ensures Comparable(Both(q, r), d, dimensions)
    ensures SumTo(ar, Both(q, r), d, dimensions, n) == SumTo(ar, q, d, dimensions, n)
  {
    if n > 0 {
      SumOfFront(ar, q, r, d, dimensions, n - 1);
    }
  }

  lemma {:induction false} SumOfBoth(ar: Arith, q: TokenMatrix, r: TokenMatrix, d: TokenMatrix, dimensions: nat, n: nat)
    requires Comparable(q, d, dimensions) && Comparable(r, d, dimensions) && n <= |r.mask| && IsReal(ar)
    ensures Comparable(Both(q, r), d, dimensions)
    ensures SumTo(ar, Both(q, r), d, dimensions, |q.mask| + n)
         == SumTo(ar, q, d, dimensions, |q.mask|) + SumTo(ar, r, d, dimensions, n)
  {
    hide Best;
    if n == 0 {
      SumOfFront(ar, q, r, d, dimensions, |q.mask|);
    } else {
      SumOfBoth(ar, q, r, d, dimensions, n - 1);
      assert Both(q, r).mask[|q.mask| + n - 1] == r.mask[n - 1];
      assert Both(q, r).values[|q.mask| + n - 1] == r.values[n - 1];
    }
  }

  // Scores add up over the rows of the query; with `SingleTokenScore` that settles them.
  lemma {:induction false} ScoresAddUp(ar: Arith, q: TokenMatrix, r: TokenMatrix, d: TokenMatrix, c: MatrixContract)
    requires Comparable(q, d, c.dimensions) && Comparable(r, d, c.dimensions) && IsReal(ar) && !c.mean
    requires true in q.mask && true in r.mask
    ensures Comparable(Both(q, r), d, c.dimensions) && true in Both(q, r).mask
    ensures Score(ar, Both(q, r), d, c) == Score(ar, q, d, c) + Score(ar, r, d, c)
  {
    hide SumTo;
    SumOfBoth(ar, q, r, d, c.dimensions, |r.mask|);
  }
}
