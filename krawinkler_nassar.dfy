/**
 * The R-mu-T relationship of Krawinkler and Nassar (1992), as
 * `xgbrhomut/r_mu_t/krawinkler_nassar.py` computes it: a coefficient pair
 * (a, b) chosen by the hardening ratio, then a power law.
 */
module KrawinklerNassar {

  import opened Outcomes
  import opened Transcendental
  import opened RealArith

  datatype Coefficients = Coefficients(a: real, b: real)

  /** The (a, b) row for hardening ratio `ah` (in percent); only 0, 2 and 10 have one. */
  function CoefficientsFor(ah: real): Result<Coefficients> {
    if ah == 0.0 then Ok(Coefficients(1.0, 0.42))
    else if ah == 2.0 then Ok(Coefficients(1.0, 0.37))
    else if ah == 10.0 then Ok(Coefficients(0.8, 0.29))
    else Err(Error(ValueError, "Wrong hardening ratio"))
  }

  /** c = T^a / (1 + T^a) + b / T. */
  function Exponent(m: Math, k: Coefficients, period: real): real
    requires period != 0.0 && 1.0 + m.pow(period, k.a) != 0.0
  {
    m.pow(period, k.a) / (1.0 + m.pow(period, k.a)) + k.b / period
  }

  /** Every division in the power law has a non-zero divisor. */
  predicate Defined(m: Math, k: Coefficients, period: real) {
    period != 0.0 && 1.0 + m.pow(period, k.a) != 0.0 && Exponent(m, k, period) != 0.0
  }

  /** The base c (mu - 1) + 1 of the power law. */
  function Base(c: real, mu: real): real {
    c * (mu - 1.0) + 1.0
  }

  /** R = (c (mu - 1) + 1)^(1 / c). */
  function PowerLaw(m: Math, mu: real, period: real, k: Coefficients): real
    requires Defined(m, k, period)
  {
    m.pow(Base(Exponent(m, k, period), mu), 1.0 / Exponent(m, k, period))
  }

  /** Strength ratio for ductility `mu` at period `period` and hardening ratio `ah`. */
  function StrengthRatio(m: Math, mu: real, period: real, ah: real): Result<real>
    requires CoefficientsFor(ah).Ok? ==> Defined(m, CoefficientsFor(ah).value, period)
  {
    match CoefficientsFor(ah)
    case Err(e) => Err(e)
    case Ok(k) => Ok(PowerLaw(m, mu, period, k))
  }

  /** The coefficient table, and `ValueError` exactly for the hardening ratios it lacks. */
  lemma CoefficientTable(ah: real)
    ensures CoefficientsFor(ah).Err? <==> ah != 0.0 && ah != 2.0 && ah != 10.0
    ensures CoefficientsFor(ah).Err? ==> CoefficientsFor(ah).error.kind == ValueError
    ensures ah == 0.0 ==> CoefficientsFor(ah) == Ok(Coefficients(1.0, 0.42))
    ensures ah == 2.0 ==> CoefficientsFor(ah) == Ok(Coefficients(1.0, 0.37))
    ensures ah == 10.0 ==> CoefficientsFor(ah) == Ok(Coefficients(0.8, 0.29))
  {
  }

  /**
   * An unknown hardening ratio raises `ValueError`; a known one gives the
   * power law of its coefficients, so nothing but (mu, T, a, b) is consulted.
   */
  lemma Dispatch(m: Math, mu: real, period: real, ah: real)
    requires CoefficientsFor(ah).Ok? ==> Defined(m, CoefficientsFor(ah).value, period)
    ensures StrengthRatio(m, mu, period, ah).Err? <==> ah != 0.0 && ah != 2.0 && ah != 10.0
    ensures StrengthRatio(m, mu, period, ah).Err? ==> StrengthRatio(m, mu, period, ah).error.kind == ValueError
    ensures CoefficientsFor(ah).Ok? ==>
      StrengthRatio(m, mu, period, ah) == Ok(PowerLaw(m, mu, period, CoefficientsFor(ah).value))
  {
  }

  /** The hardening ratio the repository's tests reject. */
  lemma RejectsThreePercent(m: Math)
    ensures StrengthRatio(m, 3.0, 1.0, 3.0) == Err(Error(ValueError, "Wrong hardening ratio"))
  {
  }

  /** For a positive period every row of the table gives a defined, positive exponent c. */
  lemma DefinedForPositivePeriods(m: Math, k: Coefficients, period: real)
    requires Lawful(m) && period > 0.0 && k.b > 0.0
    ensures Defined(m, k, period) && Exponent(m, k, period) > 0.0
  {
    var p := m.pow(period, k.a);
    assert p > 0.0;
    DivPositive(p, 1.0 + p);
    DivPositive(k.b, period);
  }

  /** A system that stays at unit ductility needs no strength reduction, whatever the legal `ah`. */
  lemma UnitDuctility(m: Math, period: real, ah: real)
    requires Lawful(m)
    requires CoefficientsFor(ah).Ok? && Defined(m, CoefficientsFor(ah).value, period)
    ensures StrengthRatio(m, 1.0, period, ah) == Ok(1.0)
  {
    var c := Exponent(m, CoefficientsFor(ah).value, period);
    assert Base(c, 1.0) == 1.0;
  }

  /** For a positive period and a ductility of at least 1 the strength ratio is positive. */
  lemma PositiveStrengthRatio(m: Math, mu: real, period: real, ah: real)
    requires Lawful(m) && period > 0.0 && mu >= 1.0 && CoefficientsFor(ah).Ok?
    ensures Defined(m, CoefficientsFor(ah).value, period)
    ensures StrengthRatio(m, mu, period, ah).Ok? && StrengthRatio(m, mu, period, ah).value > 0.0
  {
    var k := CoefficientsFor(ah).value;
    DefinedForPositivePeriods(m, k, period);
    var c := Exponent(m, k, period);
    MulNonneg(c, mu - 1.0);
    assert m.pow(Base(c, mu), 1.0 / c) > 0.0;
  }
}
