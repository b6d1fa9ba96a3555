/** The older copy of the Vidic et al. (1994) relationship, `src/rhomut/vidic.py`. */
module RhomutVidic {

  import opened Transcendental
  import Vidic

  // Bilinear system with instantaneous stiffness (fourth row of Table II of the article)
  const C1: real := 1.1
  const CR: real := 0.95
  const C2: real := 0.75
  const CT: real := 0.2

  /** `Vidic_et_al_1994(mu, T, Tc)`. */
  function VidicEtAl1994(m: Math, mu: real, t: real, tc: real): real
    requires var t0 := C2 * m.pow(mu, CT) * tc; t < t0 ==> t0 != 0.0
  {
    var t0 := C2 * m.pow(mu, CT) * tc;
    if t < t0 then C1 * m.pow(mu - 1.0, CR) * (t / t0) + 1.0
    else C1 * m.pow(mu - 1.0, CR) + 1.0
  }

  /** T0 = 0.75 mu^0.2 Tc; the plateau 1.1 (mu - 1)^0.95 + 1 from T0 on; the linear branch below it, 1 at T = 0. */
  lemma Branches(m: Math, mu: real, t: real, tc: real)
    requires var t0 := C2 * m.pow(mu, CT) * tc; t < t0 ==> t0 != 0.0
    ensures var t0 := C2 * m.pow(mu, CT) * tc;
      t >= t0 ==> VidicEtAl1994(m, mu, t, tc) == C1 * m.pow(mu - 1.0, CR) + 1.0
    ensures var t0 := C2 * m.pow(mu, CT) * tc;
      t < t0 ==> VidicEtAl1994(m, mu, t, tc) == C1 * m.pow(mu - 1.0, CR) * (t / t0) + 1.0
    ensures var t0 := C2 * m.pow(mu, CT) * tc;
      t == 0.0 < t0 ==> VidicEtAl1994(m, mu, t, tc) == 1.0
  {
    var t0 := C2 * m.pow(mu, CT) * tc;
    if t < t0 {
      var linear := C1 * m.pow(mu - 1.0, CR) * (t / t0) + 1.0;
      assert VidicEtAl1994(m, mu, t, tc) == linear;
      if t == 0.0 {
        assert t / t0 == 0.0;
        assert linear == 1.0;
      }
    }
  }

  /** The older copy agrees with the packaged one on every input. */
  lemma AgreesWithPackaged(m: Math, mu: real, t: real, tc: real)
    requires var t0 := C2 * m.pow(mu, CT) * tc; t < t0 ==> t0 != 0.0
    ensures t < Vidic.CornerPeriod(m, mu, tc) ==> Vidic.CornerPeriod(m, mu, tc) != 0.0
    ensures VidicEtAl1994(m, mu, t, tc) == Vidic.StrengthRatio(m, mu, t, tc)
  {
  }
}
