/** Cosine similarity over exact reals (core/cache.py, _cosine). The square root is a parameter. */
module Similarity {

  type Vector = seq<real>

  function Dot(a: Vector, b: Vector): real
    requires |a| == |b|
  {
    if a == [] then 0.0 else a[0] * b[0] + Dot(a[1..], b[1..])
  }

  function Cosine(sqrt: real -> real, a: Vector, b: Vector): real {
    if |a| != |b| then -1.0
    else
      var magA, magB := sqrt(Dot(a, a)), sqrt(Dot(b, b));
      if magA == 0.0 || magB == 0.0 then 0.0 else Quotient(Dot(a, b), magA, magB)
  }

  function Quotient(d: real, magA: real, magB: real): real
    requires magA != 0.0 && magB != 0.0
  {
    ProductIsNonZero(magA, magB);
    d / (magA * magB)
  }

  lemma ProductIsNonZero(x: real, y: real)
    requires x != 0.0 && y != 0.0
    ensures x * y != 0.0
  {
    assert x * y / y == x;
  }

  // All that is assumed of math.sqrt.
  ghost predicate IsSqrt(sqrt: real -> real) {
    forall x :: x >= 0.0 ==> sqrt(x) >= 0.0 && sqrt(x) * sqrt(x) == x
  }

  lemma PositiveProduct(x: real, y: real)
    requires x > 0.0 && y > 0.0
    ensures x * y > 0.0
  {
  }

  lemma PositiveSquare(x: real)
    requires x != 0.0
    ensures x * x > 0.0
  {
    if x > 0.0 {
      PositiveProduct(x, x);
    } else {
      PositiveProduct(-x, -x);
      assert (-x) * (-x) == x * x;
    }
  }

  lemma ProductPlus(x: real, y: real, rest: real)
    requires x * y >= 0.0 && rest >= 0.0
    ensures x * y + rest >= 0.0
    ensures x * y > 0.0 || rest > 0.0 ==> x * y + rest > 0.0
  {
  }

  // One squared component in front of a sum of squares.
  lemma SquarePlus(x: real, rest: real)
    requires rest >= 0.0
    ensures x * x + rest >= 0.0
    ensures x != 0.0 || rest > 0.0 ==> x * x + rest > 0.0
  {
    if x == 0.0 {
      assert x * x == 0.0;
    } else {
      PositiveSquare(x);
    }
    ProductPlus(x, x, rest);
  }

  lemma {:induction false} DotSelfIsNonNegative(a: Vector)
    ensures Dot(a, a) >= 0.0
  {
    if a != [] {
      DotSelfIsNonNegative(a[1..]);
      SquarePlus(a[0], Dot(a[1..], a[1..]));
    }
  }

  ghost predicate NonZero(a: Vector) {
    exists i :: 0 <= i < |a| && a[i] != 0.0
  }

  lemma {:induction false} DotSelfIsPositive(a: Vector)
    requires NonZero(a)
    ensures Dot(a, a) > 0.0
  {
    DotSelfIsNonNegative(a[1..]);
    if a[0] == 0.0 {
      var i :| 0 <= i < |a| && a[i] != 0.0;
      assert a[1..][i - 1] != 0.0;
      DotSelfIsPositive(a[1..]);
    }
    SquarePlus(a[0], Dot(a[1..], a[1..]));
  }

  // a - t * b, component by component.
  function Residual(a: Vector, b: Vector, t: real): (r: Vector)
    requires |a| == |b|
    ensures |r| == |a|
  {
    if a == [] then [] else [a[0] - t * b[0]] + Residual(a[1..], b[1..], t)
  }

  lemma ExpandSquare(x: real, y: real, t: real)
    ensures (x - t * y) * (x - t * y) == x * x - 2.0 * t * (x * y) + t * t * (y * y)
  {
  }

  lemma Regroup(t: real, p: real, q: real, u: real, v: real)
    ensures 2.0 * t * (p + q) == 2.0 * t * p + 2.0 * t * q
    ensures t * t * (u + v) == t * t * u + t * t * v
  {
  }

  lemma {:induction false} ResidualSquare(a: Vector, b: Vector, t: real)
    requires |a| == |b|
    ensures var r := Residual(a, b, t);
            Dot(r, r) == Dot(a, a) - 2.0 * t * Dot(a, b) + t * t * Dot(b, b)
  {
    if a == [] {
      assert Dot(a, b) == 0.0 && Dot(b, b) == 0.0;
    } else {
      var rest := Residual(a[1..], b[1..], t);
      var r := Residual(a, b, t);
      ResidualSquare(a[1..], b[1..], t);
      assert r[0] == a[0] - t * b[0] && r[1..] == rest;
      ExpandSquare(a[0], b[0], t);
      Regroup(t, a[0] * b[0], Dot(a[1..], b[1..]), b[0] * b[0], Dot(b[1..], b[1..]));
    }
  }

  // From A - 2tD + ttB >= 0 at t = D / B.
  lemma Discriminant(d: real, a: real, b: real)
    requires b > 0.0
    requires var t := d / b; a - 2.0 * t * d + t * t * b >= 0.0
    ensures d * d <= a * b
  {
    var t := d / b;
    assert t * b == d;
    assert t * t * b == t * d;
    assert a - t * d >= 0.0;
    assert (a - t * d) * b == a * b - d * (t * b);
    assert (a - t * d) * b >= 0.0;
  }

  lemma {:induction false} DotWithZero(a: Vector, b: Vector)
    requires |a| == |b| && Dot(b, b) == 0.0
    ensures Dot(a, b) == 0.0
  {
    if a != [] {
      DotSelfIsNonNegative(b[1..]);
      SquarePlus(b[0], Dot(b[1..], b[1..]));
      DotWithZero(a[1..], b[1..]);
    }
  }

  lemma CauchySchwarz(a: Vector, b: Vector)
    requires |a| == |b|
    ensures Dot(a, b) * Dot(a, b) <= Dot(a, a) * Dot(b, b)
  {
    hide Dot, Residual;
    DotSelfIsNonNegative(b);
    if Dot(b, b) == 0.0 {
      DotWithZero(a, b);
    } else {
      var t := Dot(a, b) / Dot(b, b);
      ResidualSquare(a, b, t);
      DotSelfIsNonNegative(Residual(a, b, t));
      Discriminant(Dot(a, b), Dot(a, a), Dot(b, b));
    }
  }

  lemma SquareOfProduct(x: real, y: real)
    ensures (x * y) * (x * y) == (x * x) * (y * y)
  {
  }

  lemma LargerSquare(x: real, y: real)
    requires 0.0 <= y < x
    ensures x * x > y * y
  {
    PositiveProduct(x - y, x + y);
    assert (x - y) * (x + y) == x * x - y * y;
  }

  lemma SquareBounds(d: real, p: real)
    requires p > 0.0 && d * d <= p * p
    ensures -p <= d <= p
  {
    if d > p {
      LargerSquare(d, p);
    }
    assert (-d) * (-d) == d * d;
    if d < -p {
      LargerSquare(-d, p);
    }
  }

  lemma RatioBounds(d: real, p: real)
    requires p > 0.0 && -p <= d <= p
    ensures -1.0 <= d / p <= 1.0
  {
  }

  lemma QuotientBounds(d: real, a: real, b: real, magA: real, magB: real)
    requires magA > 0.0 && magB > 0.0 && magA * magA == a && magB * magB == b
    requires d * d <= a * b
    ensures -1.0 <= Quotient(d, magA, magB) <= 1.0
  {
    PositiveProduct(magA, magB);
    SquareOfProduct(magA, magB);
    SquareBounds(d, magA * magB);
    RatioBounds(d, magA * magB);
  }

  lemma SelfRatio(p: real)
    requires p > 0.0
    ensures p / p == 1.0
  {
  }

  lemma QuotientIsOne(d: real, m: real)
    requires m * m == d && d > 0.0
    ensures m != 0.0 && Quotient(d, m, m) == 1.0
  {
    assert m != 0.0;
    var p := m * m;
    SelfRatio(p);
    assert Quotient(d, m, m) == d / p;
  }

  // A magnitude of a vector with itself: non-negative, and its square is the vector's.
  lemma Magnitude(sqrt: real -> real, a: Vector) returns (mag: real)
    requires IsSqrt(sqrt)
    ensures mag == sqrt(Dot(a, a)) && mag >= 0.0 && mag * mag == Dot(a, a)
  {
    DotSelfIsNonNegative(a);
    mag := sqrt(Dot(a, a));
  }

  // Scores always lie in [-1, 1].
  lemma CosineRange(sqrt: real -> real, a: Vector, b: Vector)
    requires IsSqrt(sqrt)
    ensures -1.0 <= Cosine(sqrt, a, b) <= 1.0
  {
    if |a| == |b| {
      var magA := Magnitude(sqrt, a);
      var magB := Magnitude(sqrt, b);
      if magA != 0.0 && magB != 0.0 {
        CauchySchwarz(a, b);
        QuotientBounds(Dot(a, b), Dot(a, a), Dot(b, b), magA, magB);
        assert Cosine(sqrt, a, b) == Quotient(Dot(a, b), magA, magB);
      }
    }
  }

  // A non-zero vector is perfectly similar to itself.
  lemma CosineWithItself(sqrt: real -> real, a: Vector)
    requires IsSqrt(sqrt) && NonZero(a)
    ensures Cosine(sqrt, a, a) == 1.0
  {
    DotSelfIsPositive(a);
    var mag := Magnitude(sqrt, a);
    QuotientIsOne(Dot(a, a), mag);
  }
}
