/**
 * The R-mu-T relationship of Vidic, Fajfar and Fischinger (1994), with the
 * coefficients for a bilinear system with instantaneous stiffness, as
 * `xgbrhomut/r_mu_t/vidic.py` computes it.
 */
module Vidic {

  import opened Transcendental
  import opened RealArith

  const C1: real := 1.1
  const CR: real := 0.95
  const C2: real := 0.75
  const CT: real := 0.2

  /** The corner period T0 below which the strength ratio grows linearly. */
  function CornerPeriod(m: Math, mu: real, periodC: real): real {
    C2 * m.pow(mu, CT) * periodC
  }

  /** Strength ratio for ductility `mu` at `period`, with corner period `periodC` (T1 in the article). */
  function StrengthRatio(m: Math, mu: real, period: real, periodC: real): real
    requires period < CornerPeriod(m, mu, periodC) ==> CornerPeriod(m, mu, periodC) != 0.0
  {
    var period0 := CornerPeriod(m, mu, periodC);
    if period < period0 then C1 * m.pow(mu - 1.0, CR) * (period / period0) + 1.0
    else C1 * m.pow(mu - 1.0, CR) + 1.0
  }

  /** The corner period is positive for a positive ductility and corner period. */
  lemma CornerPeriodPositive(m: Math, mu: real, periodC: real)
    requires Lawful(m) && mu > 0.0 && periodC > 0.0
    ensures CornerPeriod(m, mu, periodC) > 0.0
  {
    var p := m.pow(mu, CT);
    assert p > 0.0;
    assert C2 * p > 0.0;
    assert C2 * p * periodC == (C2 * p) * periodC;
  }

  /** From the corner period on, the strength ratio is a plateau that does not depend on the period. */
  lemma PlateauFromCorner(m: Math, mu: real, period: real, periodC: real)
    requires period >= CornerPeriod(m, mu, periodC)
    ensures StrengthRatio(m, mu, period, periodC) == C1 * m.pow(mu - 1.0, CR) + 1.0
  {
  }

  /** Below the corner period the strength ratio is linear in the period and 1 at period 0. */
  lemma LinearBelowCorner(m: Math, mu: real, period: real, periodC: real)
    requires period < CornerPeriod(m, mu, periodC) && CornerPeriod(m, mu, periodC) != 0.0
    ensures StrengthRatio(m, mu, period, periodC)
      == C1 * m.pow(mu - 1.0, CR) * (period / CornerPeriod(m, mu, periodC)) + 1.0
    ensures period == 0.0 ==> StrengthRatio(m, mu, period, periodC) == 1.0
  {
  }

  /**
   * Continuity at the corner period: below it, the gap to the plateau is
   * proportional to the distance to the corner.
   */
  lemma ContinuousAtCorner(m: Math, mu: real, period: real, periodC: real)
    requires 0.0 < CornerPeriod(m, mu, periodC) && period < CornerPeriod(m, mu, periodC)
    ensures var period0 := CornerPeriod(m, mu, periodC);
      C1 * m.pow(mu - 1.0, CR) + 1.0 - StrengthRatio(m, mu, period, periodC)
        == C1 * m.pow(mu - 1.0, CR) * ((period0 - period) / period0)
  {
    var period0 := CornerPeriod(m, mu, periodC);
    var k := C1 * m.pow(mu - 1.0, CR);
    OneMinusRatio(period, period0);
    assert k - k * (period / period0) == k * (1.0 - period / period0);
  }

  /**
   * For a ductile system (mu >= 1), a positive corner period and
   * non-negative periods, the strength ratio is at least 1, at most the
   * plateau, and does not decrease with the period.
   */
  lemma BoundedAndMonotone(m: Math, mu: real, period1: real, period2: real, periodC: real)
    requires Lawful(m) && mu >= 1.0 && periodC > 0.0 && 0.0 <= period1 <= period2
    ensures 1.0 <= StrengthRatio(m, mu, period1, periodC)
    ensures StrengthRatio(m, mu, period1, periodC) <= StrengthRatio(m, mu, period2, periodC)
    ensures StrengthRatio(m, mu, period2, periodC) <= C1 * m.pow(mu - 1.0, CR) + 1.0
  {
    CornerPeriodPositive(m, mu, periodC);
    var period0 := CornerPeriod(m, mu, periodC);
    var k := C1 * m.pow(mu - 1.0, CR);
    MulNonneg(C1, m.pow(mu - 1.0, CR));
    assert StrengthRatio(m, mu, period1, periodC) == Piece(k, period1, period0);
    assert StrengthRatio(m, mu, period2, periodC) == Piece(k, period2, period0);
    PieceBoundedAndMonotone(k, period1, period2, period0);
  }

  /** The shape of the relationship with the plateau height k - 1 abstracted: linear up to p0, flat after it. */
  function Piece(k: real, p: real, p0: real): real
    requires p0 > 0.0
  {
    if p < p0 then k * (p / p0) + 1.0 else k + 1.0
  }

  /** The two-piece shape with a non-negative slope is bounded by 1 and k + 1 and non-decreasing. */
  lemma PieceBoundedAndMonotone(k: real, p1: real, p2: real, p0: real)
    requires k >= 0.0 && p0 > 0.0 && 0.0 <= p1 <= p2
    ensures 1.0 <= Piece(k, p1, p0) <= Piece(k, p2, p0) <= k + 1.0
  {
    var q1, q2 := p1 / p0, p2 / p0;
    DivNonneg(p1, p0);
    DivMonotone(p1, p2, p0);
    if p1 < p0 {
      DivBelowOne(p1, p0);
      MulMonotone(k, 0.0, q1);
      MulMonotone(k, q1, 1.0);
      assert 0.0 <= k * q1 <= k;
      assert Piece(k, p1, p0) == k * q1 + 1.0;
    } else {
      PlateauPiece(k, p1, p0);
    }
    if p2 < p0 {
      DivBelowOne(p2, p0);
      MulMonotone(k, q1, q2);
      MulMonotone(k, q2, 1.0);
      assert k * q2 <= k;
      assert Piece(k, p2, p0) == k * q2 + 1.0;
    } else {
      PlateauPiece(k, p2, p0);
    }
  }

  /** From p0 on the shape is the plateau k + 1. */
  lemma PlateauPiece(k: real, p: real, p0: real)
    requires p0 > 0.0 && p >= p0
    ensures Piece(k, p, p0) == k + 1.0
  {
  }
}
