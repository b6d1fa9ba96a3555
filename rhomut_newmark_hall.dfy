/**
 * The older copy of the Newmark-Hall relationship,
 * `src/rhomut/newmark_hall.py`, whose chain ends in `else: raise ValueError`.
 */
module RhomutNewmarkHall {

  import opened Outcomes
  import opened Transcendental
  import NewmarkHall

  /** `Newmark_Hall_1992(mu, T, Tcc, Tc)`. */
  function NewmarkHall1992(m: Math, mu: real, t: real, tcc: real, tc: real): (r: Result<real>)
    requires m.log(0.125 / (1.0 / 33.0)) != 0.0
    ensures r.Ok?  // the final `raise ValueError` is unreachable for real periods
  {
    var ta, tb := 1.0 / 33.0, 0.125;
    var beta := m.log(t / ta) / m.log(tb / ta);
    if t < ta then Ok(1.0)
    else if t <= tb then Ok(m.pow(2.0 * mu - 1.0, 0.5 * beta))
    else if t <= tcc then Ok(m.pow(2.0 * mu - 1.0, 0.5))
    else if t <= tc then Ok((t / tc) * mu)
    else if t >= tc then Ok(mu)
    else Err(Error(ValueError, ""))
  }

  /** Below Ta the result is 1; above Ta, Tb, Tcc and Tc it is `mu`; the three middle segments in priority order. */
  lemma Segments(m: Math, mu: real, t: real, tcc: real, tc: real)
    requires m.log(0.125 / (1.0 / 33.0)) != 0.0
    ensures t < 1.0 / 33.0 ==> NewmarkHall1992(m, mu, t, tcc, tc) == Ok(1.0)
    ensures 1.0 / 33.0 <= t <= 0.125 ==>
      NewmarkHall1992(m, mu, t, tcc, tc) == Ok(m.pow(2.0 * mu - 1.0, 0.5 * (m.log(t / (1.0 / 33.0)) / m.log(0.125 / (1.0 / 33.0)))))
    ensures 0.125 < t <= tcc ==> NewmarkHall1992(m, mu, t, tcc, tc) == Ok(m.pow(2.0 * mu - 1.0, 0.5))
    ensures 0.125 < t && tcc < t <= tc ==> NewmarkHall1992(m, mu, t, tcc, tc) == Ok((t / tc) * mu)
    ensures 0.125 < t && tcc < t && tc < t ==> NewmarkHall1992(m, mu, t, tcc, tc) == Ok(mu)
  {
    assert 1.0 / 33.0 < 0.125;
    if 0.125 < t && tcc < t <= tc {
      AgreesWithPackaged(m, mu, t, tcc, tc);
      NewmarkHall.Segments(m, mu, t, tcc, tc);
    }
  }

  /** The older copy agrees with the packaged one on every real input. */
  lemma AgreesWithPackaged(m: Math, mu: real, t: real, tcc: real, tc: real)
    requires m.log(0.125 / (1.0 / 33.0)) != 0.0
    ensures m.log(NewmarkHall.PeriodB / NewmarkHall.PeriodA) != 0.0
    ensures NewmarkHall1992(m, mu, t, tcc, tc) == NewmarkHall.StrengthRatio(m, mu, t, tcc, tc)
  {
  }
}
