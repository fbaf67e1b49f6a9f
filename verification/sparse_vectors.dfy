// Sorted sparse vectors and their inner product. Addition and multiplication are those of
// an arbitrary machine arithmetic: neither associativity nor commutativity is assumed, so
// what is proved equal is produced by the same operations in the same order.
module SparseVectors {
  import opened Basics

  datatype Arith = Arith(add: (real, real) -> real, mul: (real, real) -> real)

  datatype SparseValues = SparseValues(indices: seq<int>, weights: seq<real>)

  // `unit` asks for vectors of length one.
  datatype Contract = Contract(ar: Arith, dimensions: int, maxNonzero: int, unit: bool)

  datatype Outcome<T> = Ok(value: T) | ErrEmptyVector | ErrInvalid

  // Strictly increasing non-negative indices with positive weights.
  predicate Ordered(v: SparseValues) {
    |v.indices| == |v.weights|
    && (forall i :: 0 <= i < |v.indices| ==> 0 <= v.indices[i])
    && (forall i, j :: 0 <= i < j < |v.indices| ==> v.indices[i] < v.indices[j])
    && (forall i :: 0 <= i < |v.weights| ==> v.weights[i] > 0.0)
  }

  function SquareSum(ar: Arith, row: seq<real>): real {
    if row == [] then 0.0
    else ar.add(SquareSum(ar, row[..|row| - 1]), ar.mul(row[|row| - 1], row[|row| - 1]))
  }

  predicate NormFits(norm: real, unit: bool) {
    norm != 0.0 && (unit ==> -0.0001 <= norm - 1.0 <= 0.0001)
  }

  predicate ValidVector(v: SparseValues, c: Contract) {
    Ordered(v) && 0 < |v.indices| <= c.maxNonzero && v.indices[|v.indices| - 1] < c.dimensions
    && NormFits(SquareSum(c.ar, v.weights), c.unit)
  }

  // One pass over indices and weights, with the square sum on the way.
  method ValidateVector(v: SparseValues, c: Contract) returns (r: Outcome<bool>)
    ensures r == if v.indices == [] then ErrEmptyVector else if ValidVector(v, c) then Ok(true) else ErrInvalid
  {
    if v.indices == [] {
      return ErrEmptyVector;
    }
    if |v.indices| != |v.weights| || |v.indices| > c.maxNonzero {
      return ErrInvalid;
    }
    var last, norm := -1, 0.0;
    for i := 0 to |v.indices|
      invariant last == if i == 0 then -1 else v.indices[i - 1]
      invariant forall s :: 0 <= s < i ==> 0 <= v.indices[s] <= last && v.weights[s] > 0.0
      invariant forall s, t :: 0 <= s < t < i ==> v.indices[s] < v.indices[t]
      invariant last < c.dimensions || i == 0
      invariant norm == SquareSum(c.ar, v.weights[..i])
    {
      if v.indices[i] <= last || v.indices[i] >= c.dimensions || v.weights[i] <= 0.0 {
        return ErrInvalid;
      }
      assert v.weights[..i + 1][..i] == v.weights[..i];
      last := v.indices[i];
      norm := c.ar.add(norm, c.ar.mul(v.weights[i], v.weights[i]));
    }
    assert v.weights[..|v.weights|] == v.weights;
    return if NormFits(norm, c.unit) then Ok(true) else ErrInvalid;
  }

  // The weight a vector gives to one token, if it names it.
  function WeightAt(v: SparseValues, token: int): Option<real>
    requires |v.indices| == |v.weights|
  {
    WeightIn(v, token, |v.indices|)
  }

  function WeightIn(v: SparseValues, token: int, n: nat): (r: Option<real>)
    requires n <= |v.indices| == |v.weights|
    ensures r.None? ==> token !in v.indices[..n]
    ensures r.Some? ==> exists i :: 0 <= i < n && v.indices[i] == token && v.weights[i] == r.value
  {
    if n == 0 then None
    else if v.indices[n - 1] == token then Some(v.weights[n - 1])
    else WeightIn(v, token, n - 1)
  }

  lemma {:induction false} WeightIsUnique(v: SparseValues, i: nat)
    requires Ordered(v) && i < |v.indices|
    ensures WeightAt(v, v.indices[i]) == Some(v.weights[i])
  {
  }

  // The inner product over the first n tokens of q, summed in q's order from zero.
  function Partial(ar: Arith, q: SparseValues, v: SparseValues, n: nat): real
    requires n <= |q.indices| == |q.weights| && |v.indices| == |v.weights|
  {
    if n == 0 then 0.0
    else
      var w := WeightAt(v, q.indices[n - 1]);
      if w.None? then Partial(ar, q, v, n - 1)
      else ar.add(Partial(ar, q, v, n - 1), ar.mul(q.weights[n - 1], w.value))
  }

  function Inner(ar: Arith, q: SparseValues, v: SparseValues): real
    requires |q.indices| == |q.weights| && |v.indices| == |v.weights|
  {
    Partial(ar, q, v, |q.indices|)
  }

  // Tokens of q from i on that v does not name add nothing.
  lemma {:induction false} PartialStops(ar: Arith, q: SparseValues, v: SparseValues, i: nat, n: nat)
    requires i <= n <= |q.indices| == |q.weights| && |v.indices| == |v.weights|
    requires forall s :: i <= s < n ==> q.indices[s] !in v.indices
    ensures Partial(ar, q, v, n) == Partial(ar, q, v, i)
  {
    if i < n {
      PartialStops(ar, q, v, i, n - 1);
      assert v.indices[..|v.indices|] == v.indices;
      assert WeightAt(v, q.indices[n - 1]).None?;
    }
  }

  method CheckOrdered(v: SparseValues) returns (r: Outcome<bool>)
    ensures r == if v.indices == [] then ErrEmptyVector else if Ordered(v) then Ok(true) else ErrInvalid
  {
    if v.indices == [] {
      return ErrEmptyVector;
    }
    if |v.indices| != |v.weights| {
      return ErrInvalid;
    }
    var last := -1;
    for i := 0 to |v.indices|
      invariant last == if i == 0 then -1 else v.indices[i - 1]
      invariant forall s :: 0 <= s < i ==> 0 <= v.indices[s] <= last && v.weights[s] > 0.0
      invariant forall s, t :: 0 <= s < t < i ==> v.indices[s] < v.indices[t]
    {
      if v.indices[i] <= last || v.weights[i] <= 0.0 {
        return ErrInvalid;
      }
      last := v.indices[i];
    }
    return Ok(true);
  }

  // The merge of two sorted vectors is the inner product, in the order of the first.
  method Dot(ar: Arith, a: SparseValues, b: SparseValues) returns (r: Outcome<real>)
    ensures a.indices == [] ==> r == ErrEmptyVector
    ensures a.indices != [] && !Ordered(a) ==> r == ErrInvalid
    ensures Ordered(a) && a.indices != [] && b.indices == [] ==> r == ErrEmptyVector
    ensures Ordered(a) && a.indices != [] && b.indices != [] && !Ordered(b) ==> r == ErrInvalid
    ensures Ordered(a) && Ordered(b) && a.indices != [] && b.indices != [] ==> r == Ok(Inner(ar, a, b))
  {
    var ok := CheckOrdered(a);
    if !ok.Ok? {
      return if ok.ErrInvalid? then ErrInvalid else ErrEmptyVector;
    }
    ok := CheckOrdered(b);
    if !ok.Ok? {
      return if ok.ErrInvalid? then ErrInvalid else ErrEmptyVector;
    }
    var sum := Merge(ar, a, b);
    return Ok(sum);
  }

  method Merge(ar: Arith, a: SparseValues, b: SparseValues) returns (sum: real)
    requires Ordered(a) && Ordered(b)
    ensures sum == Inner(ar, a, b)
  {
    sum := 0.0;
    var i, j := 0, 0;
    while i < |a.indices| && j < |b.indices|
      invariant i <= |a.indices| && j <= |b.indices|
      invariant sum == Partial(ar, a, b, i)
      invariant forall t :: 0 <= t < j && i < |a.indices| ==> b.indices[t] < a.indices[i]
      decreases |a.indices| - i + |b.indices| - j
    {
      if a.indices[i] < b.indices[j] {
        PartialStops(ar, a, b, i, i + 1);
        i := i + 1;
      } else if a.indices[i] > b.indices[j] {
        j := j + 1;
      } else {
        WeightIsUnique(b, j);
        sum := ar.add(sum, ar.mul(a.weights[i], b.weights[j]));
        i, j := i + 1, j + 1;
      }
    }
    PartialStops(ar, a, b, i, |a.indices|);
  }

  // A token of q that v names.
  ghost predicate Meets(q: SparseValues, v: SparseValues, n: nat)
    requires n <= |q.indices|
  {
    exists s :: 0 <= s < n && q.indices[s] in v.indices
  }

  // Vectors without a common token have inner product zero.
  lemma {:induction false} NoMeetingIsZero(ar: Arith, q: SparseValues, v: SparseValues, n: nat)
    requires n <= |q.indices| == |q.weights| && |v.indices| == |v.weights| && !Meets(q, v, n)
    ensures Partial(ar, q, v, n) == 0.0
  {
    PartialStops(ar, q, v, 0, n);
  }
}
