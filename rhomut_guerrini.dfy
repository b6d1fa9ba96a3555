/**
 * The older copy of the Guerrini et al. (2017) relationship,
 * `src/rhomut/guerrini.py`, which takes everything after the strength
 * ratio as a tuple of positional arguments and unpacks it itself.
 */
module RhomutGuerrini {

  import opened Outcomes
  import opened Transcendental
  import opened Text
  import Guerrini

  /** A positional argument: a number or a string. */
  datatype Value = Number(x: real) | Str(s: string)

  /** The pair (ahyst, Thyst) the `if`/`elif` chain assigns. */
  datatype Row = Row(ahyst: real, tHyst: real)

  /** The row of a case, compared in lower case; any other case raises a bare `ValueError`. */
  function Hysteresis(caseName: string): Result<Row> {
    var c := Lower(caseName);
    if c == "fd" then Ok(Row(0.7, 0.055))
    else if c == "in" then Ok(Row(0.2, 0.030))
    else if c == "sd" then Ok(Row(0.0, 0.022))
    else Err(Error(ValueError, ""))
  }

  /**
   * The arguments reach the divisions of the formula: four of them, a string
   * case with coefficients, and numbers T and Tc. `mu` is only subtracted
   * after the divisions, so its kind does not matter here.
   */
  predicate Reaches(data: seq<Value>) {
    && |data| == 4
    && data[1].Number? && data[2].Str? && data[3].Number?
    && Hysteresis(data[2].s).Ok?
  }

  /** The exponents b and c the function sets before its formula. */
  const B: real := 2.3
  const C: real := 2.1

  /** Every division in the formula has a non-zero divisor, for a row and the periods T and Tc. */
  predicate Divisible(m: Math, row: Row, t: real, tc: real) {
    row.tHyst != 0.0 && tc != 0.0 && (t / row.tHyst + row.ahyst) * m.pow(t / tc, B) != 0.0
  }

  /** R + (R - 1)^c / ((T/Thyst + ahyst) (T/Tc)^b). */
  function Predicted(m: Math, r: real, t: real, tc: real, row: Row): real
    requires Divisible(m, row, t, tc)
  {
    r + m.pow(r - 1.0, C) / ((t / row.tHyst + row.ahyst) * m.pow(t / tc, B))
  }

  /** Every division in the formula has a non-zero divisor, for arguments that reach the divisions. */
  predicate Defined(m: Math, data: seq<Value>)
    requires Reaches(data)
  {
    Divisible(m, Hysteresis(data[2].s).value, data[1].x, data[3].x)
  }

  function Abs(x: real): real {
    if x < 0.0 then -x else x
  }

  /**
   * `ductility(R, *data)`: unpacking `mu, T, case, Tc = data` raises
   * `ValueError("Wrong input arguments")` unless there are exactly four;
   * `case.lower()` raises `AttributeError` on a number; an unknown case
   * raises `ValueError`; arithmetic on a string operand raises `TypeError`.
   */
  function Ductility(m: Math, r: real, data: seq<Value>): (d: Result<real>)
    requires Reaches(data) ==> Defined(m, data)
    ensures d.Ok? ==> d.value >= 0.0
    ensures |data| != 4 <==> d == Err(Error(ValueError, "Wrong input arguments"))
  {
    if |data| != 4 then Err(Error(ValueError, "Wrong input arguments"))
    else
      var mu := data[0];
      var t := data[1];
      var caseName := data[2];
      var tc := data[3];
      if !caseName.Str? then Err(Error(AttributeError, "lower"))
      else match Hysteresis(caseName.s)
        case Err(e) => Err(e)
        case Ok(row) =>
          if !(mu.Number? && t.Number? && tc.Number?) then Err(Error(TypeError, ""))
          else Ok(Abs(mu.x - Predicted(m, r, t.x, tc.x, row)))
  }

  /** The case table: fd, in and sd in any case; anything else raises `ValueError`. */
  lemma CaseTable(caseName: string)
    ensures EqualIgnoringCase(caseName, "fd") <==> Hysteresis(caseName) == Ok(Row(0.7, 0.055))
    ensures EqualIgnoringCase(caseName, "in") <==> Hysteresis(caseName) == Ok(Row(0.2, 0.030))
    ensures EqualIgnoringCase(caseName, "sd") <==> Hysteresis(caseName) == Ok(Row(0.0, 0.022))
    ensures Hysteresis(caseName).Err? <==>
      !EqualIgnoringCase(caseName, "fd") && !EqualIgnoringCase(caseName, "in")
      && !EqualIgnoringCase(caseName, "sd")
    ensures Hysteresis(caseName).Err? ==> Hysteresis(caseName).error.kind == ValueError
  {
    LowerMatchesIgnoringCase(caseName, "fd");
    LowerMatchesIgnoringCase(caseName, "in");
    LowerMatchesIgnoringCase(caseName, "sd");
  }

  /**
   * A `mu` that is not a number fails only at the final subtraction, after
   * the divisions: with a known case and numeric periods it raises `TypeError`.
   */
  lemma NonNumericDuctility(m: Math, r: real, mu: Value, t: real, caseName: string, tc: real)
    requires Hysteresis(caseName).Ok? && !mu.Number?
    requires Divisible(m, Hysteresis(caseName).value, t, tc)
    ensures Ductility(m, r, [mu, Number(t), Str(caseName), Number(tc)]) == Err(Error(TypeError, ""))
  {
  }

  /** Called with four arguments of the right kinds, the older copy behaves like the packaged one. */
  lemma AgreesWithPackaged(m: Math, r: real, mu: real, t: real, caseName: string, tc: real)
    requires Guerrini.HysteresisFor(caseName).Ok? ==>
      Guerrini.Defined(m, Guerrini.HysteresisFor(caseName).value, t, tc)
    ensures Reaches([Number(mu), Number(t), Str(caseName), Number(tc)]) ==>
      Defined(m, [Number(mu), Number(t), Str(caseName), Number(tc)])
    ensures SameOutcome(Ductility(m, r, [Number(mu), Number(t), Str(caseName), Number(tc)]),
                        Guerrini.Ductility(m, r, mu, t, caseName, tc))
  {
    if Hysteresis(caseName).Ok? {
      var h := Guerrini.HysteresisFor(caseName).value;
      assert Hysteresis(caseName).value == Row(h.ahyst, h.periodHyst);
      SameFormula(m, r, t, tc, h);
    }
  }

  /** For the same coefficients the older closed form is the packaged one. */
  lemma SameFormula(m: Math, r: real, t: real, tc: real, h: Guerrini.Hysteresis)
    requires Guerrini.Defined(m, h, t, tc)
    ensures Divisible(m, Row(h.ahyst, h.periodHyst), t, tc)
    ensures Predicted(m, r, t, tc, Row(h.ahyst, h.periodHyst)) == Guerrini.PredictedDuctility(m, h, r, t, tc)
  {
  }
}
