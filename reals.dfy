/**
 * Real arithmetic shared by the scores and the outlier rules.  A product of
 * two unknowns is written Mul(x, y), so that each fact about signs and order
 * of products below is proved once and then used by name.
 */
module Reals {
  function Abs(x: real): (r: real)
    ensures r >= 0.0 && (r == x || r == -x)
    ensures r == 0.0 <==> x == 0.0
  {
    if x < 0.0 then -x else x
  }

  function Mul(x: real, y: real): real {
    x * y
  }

  function Square(x: real): real {
    Mul(x, x)
  }

  /** r is the square root of x: what `np.sqrt` is taken to return. */
  predicate RootOf(r: real, x: real) {
    r >= 0.0 && Square(r) == x
  }

  /** `sum` over a sequence, left to right. */
  function Sum(xs: seq<real>): real {
    if |xs| == 0 then 0.0 else xs[0] + Sum(xs[1..])
  }

  lemma MulPositive(x: real, y: real)
    requires x > 0.0 && y > 0.0
    ensures Mul(x, y) > 0.0
  {
  }

  lemma MulNegative(x: real, y: real)
    requires x < 0.0 && y < 0.0
    ensures Mul(x, y) > 0.0
  {
  }

  lemma MulNonNegative(x: real, y: real)
    requires x >= 0.0 && y >= 0.0
    ensures Mul(x, y) >= 0.0
  {
  }

  /** A fraction of a non-negative amount is at most that amount. */
  lemma MulAtMost(x: real, y: real)
    requires 0.0 <= x <= 1.0 && y >= 0.0
    ensures Mul(x, y) <= y
  {
  }

  lemma MulMonotone(x: real, x': real, y: real)
    requires x <= x' && y >= 0.0
    ensures Mul(x, y) <= Mul(x', y)
  {
  }

  lemma MulStrict(x: real, x': real, y: real)
    requires x < x' && y > 0.0
    ensures Mul(x, y) < Mul(x', y)
  {
  }

  lemma MulCommutes(x: real, y: real)
    ensures Mul(x, y) == Mul(y, x)
  {
  }

  lemma MulZero(x: real)
    ensures Mul(x, 0.0) == 0.0 && Mul(0.0, x) == 0.0
  {
  }

  lemma DivMul(a: real, s: real)
    requires s != 0.0
    ensures Mul(a / s, s) == a
  {
  }

  lemma DivNonNegative(a: real, b: real)
    requires a >= 0.0 && b > 0.0
    ensures a / b >= 0.0
    ensures a / b == 0.0 <==> a == 0.0
  {
  }

  lemma MulDiv(n: real, c: real)
    requires n != 0.0
    ensures Mul(n, c) / n == c
  {
  }

  /** A square is never negative, and it is zero only for zero. */
  lemma SquareSign(x: real)
    ensures Square(x) >= 0.0
    ensures Square(x) == 0.0 <==> x == 0.0
  {
    if x > 0.0 {
      MulPositive(x, x);
    } else if x < 0.0 {
      MulNegative(x, x);
    }
  }

  lemma SquareAbs(x: real)
    ensures Square(Abs(x)) == Square(x)
  {
  }

  lemma SquareProduct(x: real, y: real)
    ensures Square(Mul(x, y)) == Mul(Square(x), Square(y))
  {
  }

  /** Between non-negative numbers, squaring keeps the order: a > b exactly when a^2 > b^2. */
  lemma SquareMonotone(a: real, b: real)
    requires a >= 0.0 && b >= 0.0
    ensures a > b <==> Square(a) > Square(b)
  {
    if a > b {
      MulStrict(b, a, a);
      MulCommutes(b, a);
      MulMonotone(b, a, b);
    } else {
      MulMonotone(a, b, a);
      MulCommutes(b, a);
      MulMonotone(a, b, b);
    }
  }

  /** The square root of zero is zero. */
  lemma RootOfZero(r: real)
    requires RootOf(r, 0.0)
    ensures r == 0.0
  {
    SquareSign(r);
  }

  /** Dividing by a positive s: |d / s| > t exactly when |d| > t s. */
  lemma ScaledAbove(d: real, s: real, t: real)
    requires s > 0.0
    ensures Abs(d / s) > t <==> Abs(d) > Mul(t, s)
  {
    assert Abs(d / s) == Abs(d) / s;
    DivMul(Abs(d), s);
    if Abs(d) / s > t {
      MulStrict(t, Abs(d) / s, s);
    } else {
      MulMonotone(Abs(d) / s, t, s);
    }
  }

  /**
   * The test |d / s| > t without the square root: for s the root of v and a
   * non-negative t, it holds exactly when d^2 > t^2 v.
   */
  lemma SquaredTest(d: real, s: real, v: real, t: real)
    requires s > 0.0 && RootOf(s, v) && t >= 0.0
    ensures Abs(d / s) > t <==> Square(d) > Mul(Square(t), v)
  {
    ScaledAbove(d, s, t);
    MulNonNegative(t, s);
    SquareMonotone(Abs(d), Mul(t, s));
    SquareAbs(d);
    SquareProduct(t, s);
  }

  /** A sum of non-negative terms is non-negative, and zero exactly when every term is zero. */
  lemma {:induction false} SumNonNegative(xs: seq<real>)
    requires forall i :: 0 <= i < |xs| ==> xs[i] >= 0.0
    ensures Sum(xs) >= 0.0
    ensures Sum(xs) == 0.0 <==> forall i :: 0 <= i < |xs| ==> xs[i] == 0.0
  {
    if |xs| > 0 {
      SumNonNegative(xs[1..]);
      assert forall i :: 1 <= i < |xs| ==> xs[i] == xs[1..][i - 1];
    }
  }

  /** n copies of c sum to n c. */
  lemma {:induction false} SumConstant(xs: seq<real>, c: real)
    requires forall i :: 0 <= i < |xs| ==> xs[i] == c
    ensures Sum(xs) == Mul(|xs| as real, c)
  {
    if |xs| > 0 {
      SumConstant(xs[1..], c);
    }
  }
}
