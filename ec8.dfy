/**
 * The R-mu-T relationship of Annex B of EN 1998-1:2004 (Eurocode 8, Part 1),
 * as `xgbrhomut/r_mu_t/ec8.py` computes it: below the corner period the
 * strength ratio grows linearly from 1 to the ductility, above it equals the
 * ductility.
 */
module Ec8 {

  import opened RealArith

  /** Strength ratio for ductility `mu` at `period`, with corner period `periodC`. */
  function StrengthRatio(mu: real, period: real, periodC: real): real
    requires period < periodC ==> periodC != 0.0  // the division is only evaluated below the corner
  {
    if period < periodC then (mu - 1.0) * (period / periodC) + 1.0 else mu
  }

  /** At and beyond the corner period the strength ratio is the ductility itself. */
  lemma EqualDisplacementBeyondCorner(mu: real, period: real, periodC: real)
    requires period >= periodC
    ensures StrengthRatio(mu, period, periodC) == mu
  {
  }

  /** Below the corner period the strength ratio interpolates linearly between 1 and `mu`. */
  lemma LinearBelowCorner(mu: real, period: real, periodC: real)
    requires period < periodC && periodC != 0.0
    ensures StrengthRatio(mu, period, periodC) == (mu - 1.0) * (period / periodC) + 1.0
  {
  }

  /** A rigid system (period 0) has no strength reduction. */
  lemma RigidAtZeroPeriod(mu: real, periodC: real)
    requires periodC > 0.0
    ensures StrengthRatio(mu, 0.0, periodC) == 1.0
  {
  }

  /**
   * Continuity at the corner: below it, the gap to `mu` is proportional to
   * the distance to the corner, so it vanishes as the period reaches it.
   */
  lemma ContinuousAtCorner(mu: real, period: real, periodC: real)
    requires periodC > 0.0 && period < periodC
    ensures mu - StrengthRatio(mu, period, periodC) == (mu - 1.0) * (periodC - period) / periodC
  {
    OneMinusRatio(period, periodC);
    assert (mu - 1.0) * (periodC - period) / periodC == (mu - 1.0) * ((periodC - period) / periodC);
  }

  /**
   * For a ductile system (mu >= 1) and non-negative periods, the strength
   * ratio lies between 1 and `mu` and does not decrease with the period.
   */
  lemma BoundedAndMonotone(mu: real, period1: real, period2: real, periodC: real)
    requires mu >= 1.0 && periodC > 0.0 && 0.0 <= period1 <= period2
    ensures 1.0 <= StrengthRatio(mu, period1, periodC)
    ensures StrengthRatio(mu, period1, periodC) <= StrengthRatio(mu, period2, periodC)
    ensures StrengthRatio(mu, period2, periodC) <= mu
  {
    if period1 < periodC {
      BelowCornerBounds(mu, period1, periodC);
    }
    if period2 < periodC {
      BelowCornerBounds(mu, period2, periodC);
      DivMonotone(period1, period2, periodC);
      MulMonotone(mu - 1.0, period1 / periodC, period2 / periodC);
    } else {
      EqualDisplacementBeyondCorner(mu, period2, periodC);
    }
  }

  lemma BelowCornerBounds(mu: real, period: real, periodC: real)
    requires mu >= 1.0 && periodC > 0.0 && 0.0 <= period < periodC
    ensures 1.0 <= StrengthRatio(mu, period, periodC) <= mu
  {
    DivNonneg(period, periodC);
    DivBelowOne(period, periodC);
    MulMonotone(mu - 1.0, period / periodC, 1.0);
    MulMonotone(mu - 1.0, 0.0, period / periodC);
  }

  /** The values the repository's tests expect for mu = 3 and corner period 1.0. */
  lemma RepositoryTestValues()
    ensures StrengthRatio(3.0, 0.5, 1.0) == 2.0
    ensures StrengthRatio(3.0, 1.0, 1.0) == 3.0
    ensures StrengthRatio(3.0, 1.5, 1.0) == 3.0
  {
  }
}
