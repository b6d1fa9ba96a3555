/**
 * The five-segment R-mu-T relationship of Newmark and Hall, as
 * `xgbrhomut/r_mu_t/newmark_hall.py` computes it: an if/elif chain over the
 * period against the fixed spectrum periods Ta = 1/33 and Tb = 0.125 and the
 * two corner periods Tc' and Tc.
 */
module NewmarkHall {

  import opened Outcomes
  import opened Transcendental

  const PeriodA: real := 1.0 / 33.0
  const PeriodB: real := 0.125

  /** The exponent scale beta = log(T / Ta) / log(Tb / Ta). */
  function Beta(m: Math, period: real): real
    requires m.log(PeriodB / PeriodA) != 0.0
  {
    m.log(period / PeriodA) / m.log(PeriodB / PeriodA)
  }

  /**
   * Strength ratio for ductility `mu` at `period`, with corner periods
   * `periodCc` (Tc') and `periodC` (Tc). The chain has no final `else`: a
   * period that passed no test would leave the result unbound, which is
   * modelled as the `UnboundLocalError` Python would raise; the contract
   * shows that for real periods this never happens.
   */
  function StrengthRatio(m: Math, mu: real, period: real, periodCc: real, periodC: real): (r: Result<real>)
    requires m.log(PeriodB / PeriodA) != 0.0
    ensures r.Ok?
  {
    var beta := Beta(m, period);
    if period < PeriodA then Ok(1.0)
    else if period <= PeriodB then Ok(m.pow(2.0 * mu - 1.0, 0.5 * beta))
    else if period <= periodCc then Ok(m.pow(2.0 * mu - 1.0, 0.5))
    else if period <= periodC then Ok((period / periodC) * mu)
    else if period >= periodC then Ok(mu)
    else Err(Error(UnboundLocalError, "strength_ratio"))
  }

  /**
   * Which formula applies, in the chain's priority order: a later segment is
   * reached only when every earlier test has failed.
   */
  lemma Segments(m: Math, mu: real, period: real, periodCc: real, periodC: real)
    requires m.log(PeriodB / PeriodA) != 0.0
    ensures period < PeriodA ==> StrengthRatio(m, mu, period, periodCc, periodC) == Ok(1.0)
    ensures PeriodA <= period <= PeriodB ==>
      StrengthRatio(m, mu, period, periodCc, periodC) == Ok(m.pow(2.0 * mu - 1.0, 0.5 * Beta(m, period)))
    ensures PeriodB < period <= periodCc ==>
      StrengthRatio(m, mu, period, periodCc, periodC) == Ok(m.pow(2.0 * mu - 1.0, 0.5))
    ensures PeriodB < period && periodCc < period <= periodC ==>
      StrengthRatio(m, mu, period, periodCc, periodC) == Ok((period / periodC) * mu)
    ensures PeriodB < period && periodCc < period && periodC < period ==>
      StrengthRatio(m, mu, period, periodCc, periodC) == Ok(mu)
  {
    if PeriodB < period && periodCc < period <= periodC {
      LinearSegment(m, mu, period, periodCc, periodC);
    }
  }

  lemma LinearSegment(m: Math, mu: real, period: real, periodCc: real, periodC: real)
    requires m.log(PeriodB / PeriodA) != 0.0
    requires PeriodB < period && periodCc < period <= periodC
    ensures StrengthRatio(m, mu, period, periodCc, periodC) == Ok((period / periodC) * mu)
  {
  }

  /**
   * When Tc' lies below Tb the constant-acceleration segment is empty: the
   * result is what it would be with Tc' = Tb, and never the square root
   * unless the period reaches Tc'.
   */
  lemma EmptyAccelerationSegment(m: Math, mu: real, period: real, periodCc: real, periodC: real)
    requires m.log(PeriodB / PeriodA) != 0.0 && periodCc < PeriodB
    ensures StrengthRatio(m, mu, period, periodCc, periodC) == StrengthRatio(m, mu, period, PeriodB, periodC)
  {
  }

  /** Continuity at Ta: there beta is 0, so the transition segment starts at 1, the rigid value. */
  lemma ContinuousAtPeriodA(m: Math, mu: real, periodCc: real, periodC: real)
    requires Lawful(m)
    ensures m.log(PeriodB / PeriodA) != 0.0
    ensures Beta(m, PeriodA) == 0.0
    ensures StrengthRatio(m, mu, PeriodA, periodCc, periodC) == Ok(1.0)
  {
    assert m.log(PeriodB / PeriodA) > 0.0;
    assert PeriodA / PeriodA == 1.0;
    assert m.pow(2.0 * mu - 1.0, 0.5 * 0.0) == 1.0;
  }

  /** Continuity at Tb: there beta is 1, so the transition segment ends at (2mu - 1)^0.5. */
  lemma ContinuousAtPeriodB(m: Math, mu: real, periodCc: real, periodC: real)
    requires m.log(PeriodB / PeriodA) != 0.0
    ensures Beta(m, PeriodB) == 1.0
    ensures StrengthRatio(m, mu, PeriodB, periodCc, periodC) == Ok(m.pow(2.0 * mu - 1.0, 0.5))
  {
  }

  /** Continuity at Tc: the segment below Tc ends at `mu`, the value beyond it. */
  lemma ContinuousAtCorner(m: Math, mu: real, periodCc: real, periodC: real)
    requires m.log(PeriodB / PeriodA) != 0.0 && PeriodB < periodC && periodCc < periodC
    ensures StrengthRatio(m, mu, periodC, periodCc, periodC) == Ok(mu)
  {
    LinearSegment(m, mu, periodC, periodCc, periodC);
    assert periodC / periodC == 1.0;
    assert (periodC / periodC) * mu == mu;
  }

  /** The values the repository's tests expect for mu = 5, Tc' = 0.5 and Tc = 1.0. */
  lemma RepositoryTestValues(m: Math)
    requires m.log(PeriodB / PeriodA) != 0.0
    ensures StrengthRatio(m, 5.0, 1.0 / 50.0, 0.5, 1.0) == Ok(1.0)
    ensures StrengthRatio(m, 5.0, 0.1, 0.5, 1.0) == Ok(m.pow(9.0, 0.5 * Beta(m, 0.1)))
    ensures StrengthRatio(m, 5.0, 0.3, 0.5, 1.0) == Ok(m.pow(9.0, 0.5))
    ensures StrengthRatio(m, 5.0, 0.8, 0.5, 1.0) == Ok(4.0)
    ensures StrengthRatio(m, 5.0, 1.2, 0.5, 1.0) == Ok(5.0)
  {
  }
}
