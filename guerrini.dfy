/**
 * The R-mu-T relationship of Guerrini, Graziotti, Penna and Magenes (2017),
 * as `xgbrhomut/r_mu_t/guerrini.py` computes it: the hysteresis coefficients
 * (ahyst, Thyst) chosen by the case of Table II of the article, then the
 * absolute gap between a ductility and the ductility the relationship
 * predicts for a strength ratio.
 */
module Guerrini {

  import opened Outcomes
  import opened Transcendental
  import opened Text

  datatype Hysteresis = Hysteresis(ahyst: real, periodHyst: real)

  const B: real := 2.3
  const C: real := 2.1

  /** The coefficients of a case, compared in lower case; any other case raises `ValueError`. */
  function HysteresisFor(caseName: string): Result<Hysteresis> {
    if Lower(caseName) == "fd" then Ok(Hysteresis(0.7, 0.055))
    else if Lower(caseName) == "in" then Ok(Hysteresis(0.2, 0.030))
    else if Lower(caseName) == "sd" then Ok(Hysteresis(0.0, 0.022))
    else Err(Error(ValueError, "Case must be 'fd', 'in', 'sd', for details referto https://doi.org/10.1002/eqe.2862"))
  }

  /** Every division in the relationship has a non-zero divisor. */
  predicate Defined(m: Math, h: Hysteresis, period: real, periodC: real) {
    && h.periodHyst != 0.0
    && periodC != 0.0
    && (period / h.periodHyst + h.ahyst) * m.pow(period / periodC, B) != 0.0
  }

  /** The ductility the relationship predicts for `strengthRatio`: R + (R - 1)^c / ((T/Thyst + ahyst) (T/Tc)^b). */
  function PredictedDuctility(m: Math, h: Hysteresis, strengthRatio: real, period: real, periodC: real): real
    requires Defined(m, h, period, periodC)
  {
    strengthRatio + m.pow(strengthRatio - 1.0, C)
      / ((period / h.periodHyst + h.ahyst) * m.pow(period / periodC, B))
  }

  function Abs(x: real): real {
    if x < 0.0 then -x else x
  }

  /** The ductility demand: the absolute gap between `mu` and the predicted ductility. */
  function Ductility(m: Math, strengthRatio: real, mu: real, period: real, caseName: string, periodC: real): (r: Result<real>)
    requires HysteresisFor(caseName).Ok? ==> Defined(m, HysteresisFor(caseName).value, period, periodC)
    ensures r.Ok? ==> r.value >= 0.0
  {
    match HysteresisFor(caseName)
    case Err(e) => Err(e)
    case Ok(h) => Ok(Abs(mu - PredictedDuctility(m, h, strengthRatio, period, periodC)))
  }

  /**
   * `ductility` raises `ValueError` exactly when the case is none of fd, in
   * and sd ignoring case; otherwise it is the gap to the ductility predicted
   * with that case's coefficients.
   */
  lemma Dispatch(m: Math, strengthRatio: real, mu: real, period: real, caseName: string, periodC: real)
    requires HysteresisFor(caseName).Ok? ==> Defined(m, HysteresisFor(caseName).value, period, periodC)
    ensures Ductility(m, strengthRatio, mu, period, caseName, periodC).Err? <==>
      !EqualIgnoringCase(caseName, "fd") && !EqualIgnoringCase(caseName, "in")
      && !EqualIgnoringCase(caseName, "sd")
    ensures Ductility(m, strengthRatio, mu, period, caseName, periodC).Err? ==>
      Ductility(m, strengthRatio, mu, period, caseName, periodC).error.kind == ValueError
    ensures Ductility(m, strengthRatio, mu, period, caseName, periodC).Ok? ==>
      && HysteresisFor(caseName).Ok?
      && Ductility(m, strengthRatio, mu, period, caseName, periodC).value
         == Abs(mu - PredictedDuctility(m, HysteresisFor(caseName).value, strengthRatio, period, periodC))
  {
    CaseTable(caseName);
  }

  /** The table of cases, matched ignoring case; anything else raises `ValueError`. */
  lemma CaseTable(caseName: string)
    ensures EqualIgnoringCase(caseName, "fd") <==> HysteresisFor(caseName) == Ok(Hysteresis(0.7, 0.055))
    ensures EqualIgnoringCase(caseName, "in") <==> HysteresisFor(caseName) == Ok(Hysteresis(0.2, 0.030))
    ensures EqualIgnoringCase(caseName, "sd") <==> HysteresisFor(caseName) == Ok(Hysteresis(0.0, 0.022))
    ensures HysteresisFor(caseName).Err? <==>
      !EqualIgnoringCase(caseName, "fd") && !EqualIgnoringCase(caseName, "in")
      && !EqualIgnoringCase(caseName, "sd")
    ensures HysteresisFor(caseName).Err? ==> HysteresisFor(caseName).error.kind == ValueError
  {
    LowerMatchesIgnoringCase(caseName, "fd");
    LowerMatchesIgnoringCase(caseName, "in");
    LowerMatchesIgnoringCase(caseName, "sd");
  }

  /**
   * The cases the repository's tests use: upper-case names are accepted, and
   * "AA" is rejected, by the table and by `ductility(4.0, 3.0, 1.0, "AA", 0.8)`.
   */
  lemma RepositoryTestCases(m: Math)
    ensures HysteresisFor("FD") == Ok(Hysteresis(0.7, 0.055))
    ensures HysteresisFor("IN") == Ok(Hysteresis(0.2, 0.030))
    ensures HysteresisFor("SD") == Ok(Hysteresis(0.0, 0.022))
    ensures HysteresisFor("AA").Err? && HysteresisFor("AA").error.kind == ValueError
    ensures var d := Ductility(m, 4.0, 3.0, 1.0, "AA", 0.8); d.Err? && d.error.kind == ValueError
  {
    assert Lower("FD") == "fd";
    assert Lower("IN") == "in";
    assert Lower("SD") == "sd";
    assert Lower("AA") == "aa";
  }

  /** The demand is zero exactly when `mu` equals the predicted ductility. */
  lemma ZeroExactlyAtPrediction(m: Math, strengthRatio: real, mu: real, period: real, caseName: string, periodC: real)
    requires HysteresisFor(caseName).Ok? && Defined(m, HysteresisFor(caseName).value, period, periodC)
    ensures Ductility(m, strengthRatio, mu, period, caseName, periodC) == Ok(0.0)
      <==> mu == PredictedDuctility(m, HysteresisFor(caseName).value, strengthRatio, period, periodC)
  {
  }

  /** With strength ratio 1 the correction term vanishes and the demand is |mu - 1|. */
  lemma ElasticStrengthRatio(m: Math, mu: real, period: real, caseName: string, periodC: real)
    requires Lawful(m)
    requires HysteresisFor(caseName).Ok? && Defined(m, HysteresisFor(caseName).value, period, periodC)
    ensures Ductility(m, 1.0, mu, period, caseName, periodC) == Ok(Abs(mu - 1.0))
  {
    UnitStrengthRatioPredictsOne(m, HysteresisFor(caseName).value, period, periodC);
  }

  /** With strength ratio 1 the predicted ductility is 1, whatever the coefficients. */
  lemma UnitStrengthRatioPredictsOne(m: Math, h: Hysteresis, period: real, periodC: real)
    requires Lawful(m) && Defined(m, h, period, periodC)
    ensures PredictedDuctility(m, h, 1.0, period, periodC) == 1.0
  {
    assert m.pow(1.0 - 1.0, C) == 0.0;
  }
}
