/**
  Decimal rounding as the evidence scripts use it: the nearest multiple of
  10^-places, and on a tie the even multiple.  Floats are exact reals here; only
  the explicit rounding calls of the scripts round.
 */
module Rounding {

  /** The number of grid steps in one unit. */
  type Scale = s: real | s >= 1.0 witness 1.0

  const PLACES2: Scale := 100.0
  const PLACES4: Scale := 10000.0
  const PLACES6: Scale := 1000000.0

  /** The integer nearest to y; the even one of two equally near. */
  function Nearest(y: real): (k: int)
    ensures -0.5 <= k as real - y <= 0.5
    ensures (k as real - y == 0.5 || k as real - y == -0.5) ==> k % 2 == 0
  {
    var f := y.Floor;
    var d := y - f as real;
    if d < 0.5 || (d == 0.5 && f % 2 == 0) then f else f + 1
  }

  function Round(x: real, s: Scale): real {
    Nearest(x * s) as real / s
  }

  ghost predicate OnGrid(x: real, s: Scale) {
    (x * s).Floor as real == x * s
  }

  function Max(a: real, b: real): real {
    if a >= b then a else b
  }

  function Min(a: real, b: real): real {
    if a <= b then a else b
  }

  function Clamp(value: real, minimum: real, maximum: real): real {
    Max(minimum, Min(maximum, value))
  }

  function Abs(x: real): real {
    if x >= 0.0 then x else -x
  }

  // Multiplication facts, kept apart from everything else because they are nonlinear.

  lemma MulMonotone(a: real, b: real, s: real)
    requires s >= 0.0 && a <= b
    ensures a * s <= b * s
  {
  }

  lemma MulAtMost(a: real, s: real)
    requires s >= 0.0 && a <= 1.0
    ensures a * s <= s
  {
  }

  lemma MulAtLeast(a: real, s: real)
    requires s >= 0.0 && a >= 1.0
    ensures a * s >= s
  {
  }

  lemma ShareOfSmall(d: real, share: real, bound: real)
    requires 0.0 <= share <= 1.0 && -bound <= d <= bound
    ensures -bound <= share * d <= bound
  {
    if d >= 0.0 {
      MulAtMost(share, d);
    } else {
      assert share * d >= d;
    }
  }

  lemma MulNonNegative(a: real, b: real)
    requires a >= 0.0 && b >= 0.0
    ensures a * b >= 0.0
  {
  }

  lemma MulCancel(a: real, b: real, s: real)
    requires s > 0.0 && a * s <= b * s
    ensures a <= b
  {
  }

  /** Bounds of a factor, read off its product with a positive number. */
  lemma FactorBounds(q: real, e: real)
    requires e > 0.0
    ensures q * e <= e ==> q <= 1.0
    ensures q * e >= 0.0 ==> q >= 0.0
  {
  }

  lemma PositiveProduct(a: real, b: real)
    requires a > 0.0 && b > 0.0
    ensures a * b > 0.0
  {
  }

  /** A product between zero and its positive factor leaves the other factor between zero and one. */
  lemma UnitFactor(q: real, e: real, product: real)
    requires e > 0.0 && product == q * e && 0.0 <= product <= e
    ensures 0.0 <= q <= 1.0
  {
    var d, r := q - 1.0, -q;
    assert product == e + d * e && r * e == -product;
    if d > 0.0 { PositiveProduct(d, e); }
    if r > 0.0 { PositiveProduct(r, e); }
  }

  lemma DivMul(a: real, s: real)
    requires s > 0.0
    ensures a / s * s == a
  {
  }

  lemma DistanceCancel(a: real, b: real, d: real, s: real)
    requires s > 0.0 && Abs(a * s - b * s) <= d * s
    ensures Abs(a - b) <= d
  {
    if a >= b {
      MulCancel(a, b + d, s);
    } else {
      MulCancel(b, a + d, s);
    }
  }

  lemma DistanceScale(a: real, b: real, d: real, s: real)
    requires s > 0.0 && Abs(a - b) <= d
    ensures Abs(a * s - b * s) <= d * s
  {
    MulMonotone(a, b + d, s);
    MulMonotone(b, a + d, s);
  }

  lemma FloorOfInteger(k: int)
    ensures (k as real).Floor == k
  {
  }

  // The chosen integer.

  lemma NearestMonotone(a: real, b: real)
    requires a <= b
    ensures Nearest(a) <= Nearest(b)
  {
  }

  lemma NearestOfInteger(k: int)
    ensures Nearest(k as real) == k
  {
  }

  lemma NearestIsNearest(y: real, j: int, d: real)
    requires Abs(j as real - y) <= d
    ensures Abs(Nearest(y) as real - y) <= d
  {
    var k := Nearest(y);
    if j < k {
      assert j as real <= k as real - 1.0;
    } else if j > k {
      assert j as real >= k as real + 1.0;
    }
  }

  // The four facts everything rests on, and that no other grid point is nearer.

  /** Scaling a rounded number up gives the integer the rounding chose. */
  lemma RoundScaled(x: real, s: Scale)
    ensures Round(x, s) * s == Nearest(x * s) as real
  {
    DivMul(Nearest(x * s) as real, s);
  }

  lemma RoundMonotone(x: real, y: real, s: Scale)
    requires x <= y
    ensures Round(x, s) <= Round(y, s)
  {
    MulMonotone(x, y, s);
    NearestMonotone(x * s, y * s);
    RoundScaled(x, s);
    RoundScaled(y, s);
    MulCancel(Round(x, s), Round(y, s), s);
  }

  lemma RoundWithinHalfUnit(x: real, s: Scale)
    ensures Abs(Round(x, s) - x) <= 0.5 / s
  {
    RoundScaled(x, s);
    DivMul(0.5, s);
    DistanceCancel(Round(x, s), x, 0.5 / s, s);
  }

  lemma RoundIsOnGrid(x: real, s: Scale)
    ensures OnGrid(Round(x, s), s)
  {
    RoundScaled(x, s);
    FloorOfInteger(Nearest(x * s));
  }

  lemma RoundExactOnGrid(x: real, s: Scale)
    requires OnGrid(x, s)
    ensures Round(x, s) == x
  {
    NearestOfInteger((x * s).Floor);
    RoundScaled(x, s);
    MulCancel(Round(x, s), x, s);
    MulCancel(x, Round(x, s), s);
  }

  lemma RoundIdempotent(x: real, s: Scale)
    ensures Round(Round(x, s), s) == Round(x, s)
  {
    RoundIsOnGrid(x, s);
    RoundExactOnGrid(Round(x, s), s);
  }

  /** No grid point is nearer to x than Round(x). */
  lemma RoundIsNearest(x: real, g: real, s: Scale)
    requires OnGrid(g, s)
    ensures Abs(Round(x, s) - x) <= Abs(g - x)
  {
    var d := Abs(g - x);
    DistanceScale(g, x, d, s);
    NearestIsNearest(x * s, (g * s).Floor, d * s);
    RoundScaled(x, s);
    DistanceCancel(Round(x, s), x, d, s);
  }

  // Consequences the pipelines use.

  lemma GridSum(x: real, y: real, s: Scale)
    requires OnGrid(x, s) && OnGrid(y, s)
    ensures OnGrid(x + y, s) && OnGrid(x - y, s)
  {
    var i, j := (x * s).Floor, (y * s).Floor;
    assert (x + y) * s == x * s + y * s == (i + j) as real;
    assert (x - y) * s == x * s - y * s == (i - j) as real;
    FloorOfInteger(i + j);
    FloorOfInteger(i - j);
  }

  /** A grid point bounds a number only if it bounds the rounded number. */
  lemma RoundAgainstGridPoint(x: real, g: real, s: Scale)
    requires OnGrid(g, s)
    ensures x <= g ==> Round(x, s) <= g
    ensures x >= g ==> Round(x, s) >= g
  {
    RoundExactOnGrid(g, s);
    if x <= g {
      RoundMonotone(x, g, s);
    }
    if x >= g {
      RoundMonotone(g, x, s);
    }
  }

  lemma IntegerOnGrid(k: int, steps: int)
    requires steps >= 1
    ensures OnGrid(k as real, steps as real)
  {
    assert k as real * steps as real == (k * steps) as real;
    FloorOfInteger(k * steps);
  }

  lemma RoundNonNegative(x: real, s: Scale)
    requires x >= 0.0
    ensures Round(x, s) >= 0.0
  {
    assert OnGrid(0.0, s);
    RoundAgainstGridPoint(x, 0.0, s);
  }
}
