// Products and quotients of reals.
module RealArithmetic {

  lemma {:induction false} Cancel(a: real, b: real, s: real)
    requires s > 0.0 && a * s <= b * s
    ensures a <= b
  {
    if a > b {
      Positive(a - b, s);
    }
  }

  lemma {:induction false} Positive(a: real, b: real)
    ensures a > 0.0 && b > 0.0 ==> a * b > 0.0
    ensures a >= 0.0 && b >= 0.0 ==> a * b >= 0.0
    ensures a == 0.0 ==> a * b == 0.0
  {
  }

  lemma {:induction false} NegatedProduct(a: real, s: real)
    ensures (-a) * s == -(a * s)
  {
  }

  lemma {:induction false} Grows(a: real, b: real, s: real)
    requires s >= 0.0 && a <= b
    ensures a * s <= b * s
  {
    Positive(b - a, s);
  }

  lemma {:induction false} Undivide(a: real, s: real)
    requires s != 0.0
    ensures (a / s) * s == a
  {
  }

  lemma {:induction false} QuotientPositive(a: real, s: real)
    requires a > 0.0 && s > 0.0
    ensures a / s > 0.0
  {
    var z := a / s;
    Undivide(a, s);
    Positive(z, s);
    Cancel(0.0, z, s);
  }

  lemma {:induction false} CancelStrictly(a: real, b: real, s: real)
    requires s > 0.0 && a * s < b * s
    ensures a < b
  {
    Cancel(a, b, s);
  }

  lemma {:induction false} InverseShrinks(x: real, y: real)
    requires 0.0 < x < y
    ensures 1.0 / x > 1.0 / y > 0.0
  {
    var u, v := 1.0 / x, 1.0 / y;
    Undivide(1.0, x);
    Undivide(1.0, y);
    QuotientPositive(1.0, y);
    Positive(y - x, v);
    assert v * x == v * y - (y - x) * v;
    CancelStrictly(v, u, x);
  }
}
