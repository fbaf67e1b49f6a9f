// Late interaction between two token matrices: for each valid query token the best inner
// product with a valid document token, summed or averaged.
module MaxSimScore {
  import opened Basics
  import opened SparseVectors

  datatype TokenMatrix = TokenMatrix(shape: seq<int>, values: seq<seq<real>>, mask: seq<bool>)

  datatype MatrixContract = MatrixContract(dimensions: nat, maxTokens: int, unitRows: bool, mean: bool)

  // ---------- valid matrices ----------

  // A valid token row has the right length; a masked one is all zero, another one has a norm.
  predicate RowFits(ar: Arith, row: seq<real>, active: bool, c: MatrixContract) {
    |row| == c.dimensions
    && if active then NormFits(SquareSum(ar, row), c.unitRows) else forall i :: 0 <= i < |row| ==> row[i] == 0.0
  }

  predicate ShapeFits(v: TokenMatrix, c: MatrixContract) {
    |v.shape| == 2 && 1 <= v.shape[0] <= c.maxTokens && v.shape[1] == c.dimensions
    && |v.values| == v.shape[0] && |v.mask| == v.shape[0]
  }

  predicate ValidMatrix(ar: Arith, v: TokenMatrix, c: MatrixContract) {
    ShapeFits(v, c) && true in v.mask
    && forall i :: 0 <= i < |v.values| ==> RowFits(ar, v.values[i], v.mask[i], c)
  }

  method ValidateMatrix(ar: Arith, v: TokenMatrix, c: MatrixContract) returns (ok: bool)
    ensures ok <==> ValidMatrix(ar, v, c)
  {
    if !ShapeFits(v, c) {
      return false;
    }
    var active := 0;
    for i := 0 to |v.values|
      invariant active == Count(v.mask[..i]) && (active > 0 <==> true in v.mask[..i])
      invariant forall k :: 0 <= k < i ==> RowFits(ar, v.values[k], v.mask[k], c)
    {
      assert v.mask[..i + 1] == v.mask[..i] + [v.mask[i]];
      ok := CheckRow(ar, v.values[i], v.mask[i], c);
      if !ok {
        return;
      }
      if v.mask[i] {
        active := active + 1;
      }
    }
    assert v.mask[..|v.values|] == v.mask;
    ok := active != 0;
  }

  method CheckRow(ar: Arith, row: seq<real>, active: bool, c: MatrixContract) returns (ok: bool)
    ensures ok <==> RowFits(ar, row, active, c)
  {
    if |row| != c.dimensions {
      return false;
    }
    var norm := 0.0;
    for i := 0 to |row|
      invariant norm == SquareSum(ar, row[..i])
      invariant !active ==> forall k :: 0 <= k < i ==> row[k] == 0.0
    {
      if !active && row[i] != 0.0 {
        return false;
      }
      assert row[..i + 1][..i] == row[..i];
      norm := ar.add(norm, ar.mul(row[i], row[i]));
    }
    assert row[..|row|] == row;
    ok := !active || NormFits(norm, c.unitRows);
  }

  function Count(mask: seq<bool>): nat {
    if mask == [] then 0 else Count(mask[..|mask| - 1]) + (if mask[|mask| - 1] then 1 else 0)
  }

  // ---------- scores ----------

  function DotTo(ar: Arith, a: seq<real>, b: seq<real>, n: nat): real
    requires n <= |a| == |b|
  {
    if n == 0 then 0.0 else ar.add(DotTo(ar, a, b, n - 1), ar.mul(a[n - 1], b[n - 1]))
  }

  function DotOf(ar: Arith, a: seq<real>, b: seq<real>): real
    requires |a| == |b|
  {
    DotTo(ar, a, b, |a|)
  }

  method DotProduct(ar: Arith, a: seq<real>, b: seq<real>) returns (r: Option<real>)
    ensures r == if |a| == 0 || |a| != |b| then None else Some(DotOf(ar, a, b))
  {
    if |a| == 0 || |a| != |b| {
      return None;
    }
    var sum := 0.0;
    for i := 0 to |a|
      invariant sum == DotTo(ar, a, b, i)
    {
      sum := ar.add(sum, ar.mul(a[i], b[i]));
    }
    return Some(sum);
  }

  // Rows a matrix can be scored on.
  predicate Scorable(v: TokenMatrix, dimensions: nat) {
    |v.values| == |v.mask| && forall i :: 0 <= i < |v.values| ==> |v.values[i]| == dimensions
  }

  // x is the largest inner product of q with a valid row among the first n of v.
  ghost predicate IsBest(ar: Arith, q: seq<real>, v: TokenMatrix, n: nat, x: real)
    requires Scorable(v, |q|) && n <= |v.mask|
  {
    (exists j :: 0 <= j < n && v.mask[j] && DotOf(ar, q, v.values[j]) == x)
    && forall j :: 0 <= j < n && v.mask[j] ==> DotOf(ar, q, v.values[j]) <= x
  }

  function BestTo(ar: Arith, q: seq<real>, v: TokenMatrix, n: nat): (r: Option<real>)
    requires Scorable(v, |q|) && n <= |v.mask|
    ensures r.None? <==> true !in v.mask[..n]
    ensures r.Some? ==> IsBest(ar, q, v, n, r.value)
  {
    if n == 0 then None
    else
      var rest := BestTo(ar, q, v, n - 1);
      assert v.mask[..n] == v.mask[..n - 1] + [v.mask[n - 1]];
      if !v.mask[n - 1] then rest
      else
        var value := DotOf(ar, q, v.values[n - 1]);
        if rest.Some? && rest.value > value then rest else Some(value)
  }

  // The best inner product of one query row over the valid rows of v.
  function Best(ar: Arith, q: seq<real>, v: TokenMatrix): (r: real)
    requires Scorable(v, |q|) && true in v.mask
    ensures IsBest(ar, q, v, |v.mask|, r)
  {
    assert v.mask[..|v.mask|] == v.mask;
    BestTo(ar, q, v, |v.mask|).value
  }

  lemma {:induction false} BestIsUnique(ar: Arith, q: seq<real>, v: TokenMatrix, x: real, y: real)
    requires Scorable(v, |q|) && IsBest(ar, q, v, |v.mask|, x) && IsBest(ar, q, v, |v.mask|, y)
    ensures x == y
  {
  }

  // Query and document fit together and the document has a valid row.
  predicate Comparable(q: TokenMatrix, d: TokenMatrix, dimensions: nat) {
    Scorable(q, dimensions) && Scorable(d, dimensions) && true in d.mask
  }

  function SumTo(ar: Arith, q: TokenMatrix, d: TokenMatrix, dimensions: nat, n: nat): real
    requires Comparable(q, d, dimensions) && n <= |q.mask|
  {
    if n == 0 then 0.0
    else if !q.mask[n - 1] then SumTo(ar, q, d, dimensions, n - 1)
    else ar.add(SumTo(ar, q, d, dimensions, n - 1), Best(ar, q.values[n - 1], d))
  }

  function Score(ar: Arith, q: TokenMatrix, d: TokenMatrix, c: MatrixContract): real
    requires Comparable(q, d, c.dimensions) && true in q.mask
  {
    var sum := SumTo(ar, q, d, c.dimensions, |q.mask|);
    CountPositive(q.mask);
    if c.mean then sum / (Count(q.mask) as real) else sum
  }

  lemma {:induction false} CountPositive(mask: seq<bool>)
    ensures Count(mask) > 0 <==> true in mask
  {
    if mask != [] {
      assert mask == mask[..|mask| - 1] + [mask[|mask| - 1]];
      CountPositive(mask[..|mask| - 1]);
    }
  }

  method BestMatch(ar: Arith, q: seq<real>, d: TokenMatrix) returns (best: Option<real>)
    requires Scorable(d, |q|) && |q| > 0
    ensures best == BestTo(ar, q, d, |d.mask|)
  {
    best := None;
    for j := 0 to |d.values|
      invariant best == BestTo(ar, q, d, j)
    {
      if d.mask[j] {
        var value := DotProduct(ar, q, d.values[j]);
        if value.None? {
          return None;
        }
        best := if best.Some? && best.value > value.value then best else value;
      }
    }
  }

  method MaxSim(ar: Arith, q: TokenMatrix, d: TokenMatrix, c: MatrixContract) returns (r: Option<real>)
    requires c.dimensions >= 1
    ensures r.Some? <==> ValidMatrix(ar, q, c) && ValidMatrix(ar, d, c)
    ensures r.Some? ==> r.value == Score(ar, q, d, c)
  {
    var ok := ValidateMatrix(ar, q, c);
    if !ok {
      return None;
    }
    ok := ValidateMatrix(ar, d, c);
    if !ok {
      return None;
    }
    var score, validQueries := 0.0, 0;
    assert d.mask[..|d.mask|] == d.mask;
    for i := 0 to |q.values|
      invariant score == SumTo(ar, q, d, c.dimensions, i) && validQueries == Count(q.mask[..i])
    {
      assert q.mask[..i + 1][..i] == q.mask[..i];
      if q.mask[i] {
        var best := BestMatch(ar, q.values[i], d);
        if best.None? {
          return None;
        }
        score := ar.add(score, best.value);
        validQueries := validQueries + 1;
      }
    }
    assert q.mask[..|q.mask|] == q.mask;
    CountPositive(q.mask);
    return Some(if c.mean then score / (validQueries as real) else score);
  }

  // A query with one valid token scores a document by that token's best row, when adding
  // to zero changes nothing.
  lemma {:induction false} NothingValidSumsToZero(ar: Arith, q: TokenMatrix, d: TokenMatrix, dimensions: nat, n: nat)
    requires Comparable(q, d, dimensions) && n <= |q.mask| && Count(q.mask[..n]) == 0
    ensures SumTo(ar, q, d, dimensions, n) == 0.0
  {
    if n > 0 {
      assert q.mask[..n][..n - 1] == q.mask[..n - 1];
      NothingValidSumsToZero(ar, q, d, dimensions, n - 1);
    }
  }

  lemma {:induction false} SingleTokenSum(ar: Arith, q: TokenMatrix, d: TokenMatrix, dimensions: nat, i: nat, n: nat)
    requires Comparable(q, d, dimensions) && i < n <= |q.mask| && q.mask[i] && Count(q.mask[..n]) == 1
    requires forall x :: ar.add(0.0, x) == x
    ensures SumTo(ar, q, d, dimensions, n) == Best(ar, q.values[i], d)
  {
    assert q.mask[..n][..n - 1] == q.mask[..n - 1];
    if i == n - 1 {
      NothingValidSumsToZero(ar, q, d, dimensions, n - 1);
    } else {
      CountPositive(q.mask[..n - 1]);
      assert q.mask[..n - 1][i];
      SingleTokenSum(ar, q, d, dimensions, i, n - 1);
    }
  }

  lemma {:induction false} SingleTokenScore(ar: Arith, q: TokenMatrix, d: TokenMatrix, c: MatrixContract, i: nat)
    requires Comparable(q, d, c.dimensions) && i < |q.mask| && q.mask[i] && Count(q.mask) == 1
    requires forall x :: ar.add(0.0, x) == x
    ensures Score(ar, q, d, c) == Best(ar, q.values[i], d)
  {
    assert q.mask[..|q.mask|] == q.mask;
    SingleTokenSum(ar, q, d, c.dimensions, i, |q.mask|);
  }
}
