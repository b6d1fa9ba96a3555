/** Small facts of real arithmetic that the solver needs stated one at a time. */
module RealArith {

  lemma DivNonneg(a: real, d: real)
    requires a >= 0.0 && d > 0.0
    ensures a / d >= 0.0
  {
  }

  lemma DivPositive(a: real, d: real)
    requires a > 0.0 && d > 0.0
    ensures a / d > 0.0
  {
  }

  lemma DivBelowOne(a: real, d: real)
    requires a < d && d > 0.0
    ensures a / d < 1.0
  {
  }

  lemma DivMonotone(a: real, b: real, d: real)
    requires a <= b && d > 0.0
    ensures a / d <= b / d
  {
  }

  lemma MulMonotone(k: real, x: real, y: real)
    requires k >= 0.0 && x <= y
    ensures k * x <= k * y
  {
  }

  lemma MulNonneg(x: real, y: real)
    requires x >= 0.0 && y >= 0.0
    ensures x * y >= 0.0
  {
  }

  lemma OneMinusRatio(p: real, c: real)
    requires c > 0.0
    ensures 1.0 - p / c == (c - p) / c
  {
    assert c / c == 1.0;
    assert (c - p) / c == c / c - p / c;
  }
}
