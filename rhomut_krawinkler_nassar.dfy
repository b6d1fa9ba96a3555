/** The older copy of the Krawinkler-Nassar relationship, `src/rhomut/krawinkler_nassar.py`. */
module RhomutKrawinklerNassar {

  import opened Outcomes
  import opened Transcendental
  import KrawinklerNassar

  /** The pair (a, b) the `if`/`elif` chain assigns. */
  datatype Row = Row(a: real, b: real)

  /** The (a, b) row for hardening ratio `ah`; any other ratio raises a bare `ValueError`. */
  function Coefficients(ah: real): Result<Row> {
    if ah == 0.0 then Ok(Row(1.0, 0.42))
    else if ah == 2.0 then Ok(Row(1.0, 0.37))
    else if ah == 10.0 then Ok(Row(0.8, 0.29))
    else Err(Error(ValueError, ""))
  }

  /** c = T^a / (1 + T^a) + b / T. */
  function Exponent(m: Math, a: real, b: real, t: real): real
    requires t != 0.0 && 1.0 + m.pow(t, a) != 0.0
  {
    m.pow(t, a) / (1.0 + m.pow(t, a)) + b / t
  }

  /** The base c (mu - 1) + 1 of the power law. */
  function Base(c: real, mu: real): real {
    c * (mu - 1.0) + 1.0
  }

  /** Every division in the power law has a non-zero divisor. */
  predicate Defined(m: Math, a: real, b: real, t: real) {
    && t != 0.0
    && 1.0 + m.pow(t, a) != 0.0
    && Exponent(m, a, b, t) != 0.0
  }

  /** `Krawinkler_Nassar_1992(mu, T, ah)`. */
  function KrawinklerNassar1992(m: Math, mu: real, t: real, ah: real): Result<real>
    requires Coefficients(ah).Ok? ==> Defined(m, Coefficients(ah).value.a, Coefficients(ah).value.b, t)
  {
    match Coefficients(ah)
    case Err(e) => Err(e)
    case Ok(row) =>
      Ok(m.pow(Base(Exponent(m, row.a, row.b, t), mu), 1.0 / Exponent(m, row.a, row.b, t)))
  }

  /**
   * For every ductility, `ValueError` exactly off the table
   * 0 -> (1, 0.42), 2 -> (1, 0.37), 10 -> (0.8, 0.29); mu = 1 gives 1.
   */
  lemma TableAndUnitDuctility(m: Math, mu: real, t: real, ah: real)
    requires Lawful(m)
    requires Coefficients(ah).Ok? ==> Defined(m, Coefficients(ah).value.a, Coefficients(ah).value.b, t)
    ensures KrawinklerNassar1992(m, mu, t, ah).Err? <==> ah != 0.0 && ah != 2.0 && ah != 10.0
    ensures KrawinklerNassar1992(m, mu, t, ah).Err? ==> KrawinklerNassar1992(m, mu, t, ah).error.kind == ValueError
    ensures ah == 0.0 ==> Coefficients(ah) == Ok(Row(1.0, 0.42))
    ensures ah == 2.0 ==> Coefficients(ah) == Ok(Row(1.0, 0.37))
    ensures ah == 10.0 ==> Coefficients(ah) == Ok(Row(0.8, 0.29))
    ensures KrawinklerNassar1992(m, 1.0, t, ah).Ok? ==> KrawinklerNassar1992(m, 1.0, t, ah).value == 1.0
  {
    if Coefficients(ah).Ok? {
      var row := Coefficients(ah).value;
      assert Base(Exponent(m, row.a, row.b, t), 1.0) == 1.0;
    }
  }

  /** The older copy behaves like the packaged one: the same value, or a `ValueError` in both. */
  lemma AgreesWithPackaged(m: Math, mu: real, t: real, ah: real)
    requires Coefficients(ah).Ok? ==> Defined(m, Coefficients(ah).value.a, Coefficients(ah).value.b, t)
    ensures KrawinklerNassar.CoefficientsFor(ah).Ok? ==>
      KrawinklerNassar.Defined(m, KrawinklerNassar.CoefficientsFor(ah).value, t)
    ensures SameOutcome(KrawinklerNassar1992(m, mu, t, ah), KrawinklerNassar.StrengthRatio(m, mu, t, ah))
  {
    if Coefficients(ah).Ok? {
      var k := KrawinklerNassar.CoefficientsFor(ah).value;
      assert Coefficients(ah).value == Row(k.a, k.b);
      assert Exponent(m, k.a, k.b, t) == KrawinklerNassar.Exponent(m, k, t);
      assert Base(Exponent(m, k.a, k.b, t), mu) == KrawinklerNassar.Base(KrawinklerNassar.Exponent(m, k, t), mu);
    }
  }
}
