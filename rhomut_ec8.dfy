/** The older copy of the Eurocode 8 Annex B relationship, `src/rhomut/ec8.py`. */
module RhomutEc8 {

  import Ec8
  import opened RealArith

  /** Strength ratio R for ductility `mu` at period `t`, with corner period `tc`. */
  function StrengthRatio(mu: real, t: real, tc: real): real
    requires t < tc ==> tc != 0.0
  {
    if t < tc then (mu - 1.0) * (t / tc) + 1.0 else mu
  }

  /**
   * Both branches, and continuity at Tc: below a positive Tc the gap to `mu`
   * is proportional to the distance to Tc.
   */
  lemma Branches(mu: real, t: real, tc: real)
    requires t < tc ==> tc != 0.0
    ensures t >= tc ==> StrengthRatio(mu, t, tc) == mu
    ensures t < tc ==> StrengthRatio(mu, t, tc) == (mu - 1.0) * (t / tc) + 1.0
    ensures 0.0 < tc && t < tc ==> mu - StrengthRatio(mu, t, tc) == (mu - 1.0) * ((tc - t) / tc)
  {
    if t >= tc {
      assert StrengthRatio(mu, t, tc) == mu;
    } else if 0.0 < tc {
      var q := t / tc;
      OneMinusRatio(t, tc);
      assert 1.0 - q == (tc - t) / tc;
      assert mu - StrengthRatio(mu, t, tc) == (mu - 1.0) * (1.0 - q);
    }
  }

  /** The older copy agrees with the packaged one on every input. */
  lemma AgreesWithPackaged(mu: real, t: real, tc: real)
    requires t < tc ==> tc != 0.0
    ensures StrengthRatio(mu, t, tc) == Ec8.StrengthRatio(mu, t, tc)
  {
  }
}
