/** Small facts of real arithmetic the solver does not find unaided:
    products and quotients of signed factors. */
module Arith {
  lemma MulNonneg(a: real, b: real)
    requires a >= 0.0 && b >= 0.0
    ensures a * b >= 0.0
  {
  }

  lemma MulPos(a: real, b: real)
    requires a > 0.0 && b > 0.0
    ensures a * b > 0.0
  {
  }

  /** Scaling by a factor in [0, 1] stays between 0 and the scaled value. */
  lemma ScaleWithin(m: real, d: real)
    requires 0.0 <= m <= 1.0 && d >= 0.0
    ensures 0.0 <= m * d <= d
  {
    MulNonneg(m, d);
    MulNonneg(1.0 - m, d);
    assert (1.0 - m) * d == d - m * d;
  }

  /** Multiplying by a non-negative number keeps order. */
  lemma MulMonotone(a: real, b: real, s: real)
    requires a <= b && s >= 0.0
    ensures a * s <= b * s
  {
    MulNonneg(b - a, s);
    assert (b - a) * s == b * s - a * s;
  }

  /** Squaring keeps order on non-negative numbers. */
  lemma SquareMonotone(a: real, b: real)
    requires 0.0 <= a <= b
    ensures a * a <= b * b
  {
    MulMonotone(a, b, a);
    MulMonotone(a, b, b);
    assert b * a == a * b;
  }

  /** Dividing by a positive number keeps order. */
  lemma DivMonotone(a: real, b: real, w: real)
    requires w > 0.0 && a <= b
    ensures a / w <= b / w
    ensures a < b ==> a / w < b / w
  {
    var qa, qb := a / w, b / w;
    assert qa * w == a && qb * w == b;
  }

  /** Multiplying by a natural number keeps order. */
  lemma {:induction false} MulMonotoneNat(a: nat, b: nat, c: nat)
    requires a <= b
    ensures a * c <= b * c
    decreases c
  {
    if c > 0 {
      MulMonotoneNat(a, b, c - 1);
      assert a * c == a * (c - 1) + a;
      assert b * c == b * (c - 1) + b;
    }
  }

  /** A quotient of [0, w] by w lies in [0, 1]. */
  lemma DivUnitInterval(x: real, w: real)
    requires 0.0 <= x <= w && w > 0.0
    ensures 0.0 <= x / w <= 1.0
  {
    DivMonotone(0.0, x, w);
    DivMonotone(x, w, w);
  }

  /** Dividing by the same positive number keeps numbers apart. */
  lemma DivInjective(x: real, y: real, w: real)
    requires w > 0.0 && x != y
    ensures x / w != y / w
  {
    if x < y {
      DivMonotone(x, y, w);
    } else {
      DivMonotone(y, x, w);
    }
  }

  /** Euclidean quotients of numbers below `w * h` are below `h`. */
  lemma QuotientBelow(i: nat, w: nat, h: nat)
    requires w > 0 && i < w * h
    ensures i / w < h
  {
    if i / w >= h {
      MulMonotoneNat(h, i / w, w);
    }
  }

  /** A natural number is determined by its quotient and remainder. */
  lemma DivModDetermine(a: nat, b: nat, w: nat)
    requires w > 0 && a % w == b % w && a / w == b / w
    ensures a == b
  {
    assert a == (a / w) * w + a % w;
    assert b == (b / w) * w + b % w;
  }
}
