/**
 * The R-mu-T relationship of Miranda (1993), as
 * `xgbrhomut/r_mu_t/miranda.py` computes it: a site-dependent divisor phi,
 * then R = (mu - 1) / phi + 1 clamped from below at 1. The site name is
 * matched after lower-casing it.
 */
module Miranda {

  import opened Outcomes
  import opened Transcendental
  import opened Text

  datatype Site = Rock | SoftSoil | Alluvium

  /** The site a name selects, compared in lower case; any other name raises `ValueError`. */
  function SiteOf(site: string): Result<Site> {
    var s := Lower(site);
    if s == "rock" then Ok(Rock)
    else if s == "soft-soil" then Ok(SoftSoil)
    else if s == "alluvium" then Ok(Alluvium)
    else Err(Error(ValueError, "Wrong site name!"))
  }

  /** Every division in the site's phi has a non-zero divisor. */
  predicate PhiDefined(site: Site, mu: real, period: real, periodG: real) {
    && period != 0.0
    && match site
       case Rock => 10.0 * period - mu * period != 0.0
       case SoftSoil => 12.0 * period - mu * period != 0.0
       case Alluvium => periodG != 0.0
  }

  /** The divisor phi of each site, with `periodG` the predominant period Tg of the ground motion. */
  function Phi(m: Math, site: Site, mu: real, period: real, periodG: real): real
    requires PhiDefined(site, mu, period, periodG)
  {
    match site
    case Rock =>
      1.0 + 1.0 / (10.0 * period - mu * period)
      - 1.0 / (2.0 * period) * m.exp(-3.0 / 2.0 * m.pow(m.log(period) - 3.0 / 5.0, 2.0))
    case SoftSoil =>
      1.0 + 1.0 / (12.0 * period - mu * period)
      - 2.0 / (5.0 * period) * m.exp(-2.0 * m.pow(m.log(period) - 1.0 / 5.0, 2.0))
    case Alluvium =>
      1.0 + periodG / (3.0 * period)
      - 3.0 * periodG / (4.0 * period) * m.exp(-3.0 * m.pow(m.log(period / periodG) - 1.0 / 4.0, 2.0))
  }

  /** Every division in the relationship has a non-zero divisor. */
  predicate Defined(m: Math, site: Site, mu: real, period: real, periodG: real) {
    PhiDefined(site, mu, period, periodG) && Phi(m, site, mu, period, periodG) != 0.0
  }

  /** Strength ratio for ductility `mu` at `period` on the named site. */
  function StrengthRatio(m: Math, mu: real, period: real, site: string, periodG: real): (r: Result<real>)
    requires SiteOf(site).Ok? ==> Defined(m, SiteOf(site).value, mu, period, periodG)
    ensures r.Ok? ==> r.value >= 1.0
  {
    match SiteOf(site)
    case Err(e) => Err(e)
    case Ok(s) =>
      var ratio := (mu - 1.0) / Phi(m, s, mu, period, periodG) + 1.0;
      Ok(if ratio < 1.0 then 1.0 else ratio)
  }

  /** The result is max(1, (mu - 1) / phi + 1) for a known site, and `ValueError` for any other name. */
  lemma ClampedRatio(m: Math, mu: real, period: real, site: string, periodG: real)
    requires SiteOf(site).Ok? ==> Defined(m, SiteOf(site).value, mu, period, periodG)
    ensures SiteOf(site).Err? <==> StrengthRatio(m, mu, period, site, periodG).Err?
    ensures StrengthRatio(m, mu, period, site, periodG).Err? ==>
      StrengthRatio(m, mu, period, site, periodG).error.kind == ValueError
    ensures SiteOf(site).Ok? ==>
      var ratio := (mu - 1.0) / Phi(m, SiteOf(site).value, mu, period, periodG) + 1.0;
      && StrengthRatio(m, mu, period, site, periodG).value >= ratio
      && StrengthRatio(m, mu, period, site, periodG).value >= 1.0
      && (StrengthRatio(m, mu, period, site, periodG).value == ratio
          || StrengthRatio(m, mu, period, site, periodG).value == 1.0)
  {
  }

  /** The site name is matched case-insensitively against the three names. */
  lemma SiteMatchingIgnoresCase(site: string)
    ensures SiteOf(site) == Ok(Rock) <==> EqualIgnoringCase(site, "rock")
    ensures SiteOf(site) == Ok(SoftSoil) <==> EqualIgnoringCase(site, "soft-soil")
    ensures SiteOf(site) == Ok(Alluvium) <==> EqualIgnoringCase(site, "alluvium")
    ensures SiteOf(site).Err? <==>
      !EqualIgnoringCase(site, "rock") && !EqualIgnoringCase(site, "soft-soil")
      && !EqualIgnoringCase(site, "alluvium")
  {
    LowerMatchesIgnoringCase(site, "rock");
    LowerMatchesIgnoringCase(site, "soft-soil");
    LowerMatchesIgnoringCase(site, "alluvium");
  }

  /** The empty name the repository's tests try is rejected, and "Rock" is accepted. */
  lemma RepositoryTestSites()
    ensures SiteOf("").Err?
    ensures SiteOf("Rock") == Ok(Rock)
  {
    SiteMatchingIgnoresCase("Rock");
  }

  /** Only the alluvium phi depends on the ground-motion period Tg. */
  lemma PhiIgnoresGroundPeriodOnRockAndSoftSoil(m: Math, site: Site, mu: real, period: real, periodG1: real, periodG2: real)
    requires site != Alluvium && PhiDefined(site, mu, period, periodG1)
    ensures PhiDefined(site, mu, period, periodG2)
    ensures Phi(m, site, mu, period, periodG1) == Phi(m, site, mu, period, periodG2)
  {
  }

  /** At unit ductility the strength ratio is exactly 1 on every site. */
  lemma UnitDuctility(m: Math, period: real, site: string, periodG: real)
    requires SiteOf(site).Ok? && Defined(m, SiteOf(site).value, 1.0, period, periodG)
    ensures StrengthRatio(m, 1.0, period, site, periodG) == Ok(1.0)
  {
    var phi := Phi(m, SiteOf(site).value, 1.0, period, periodG);
    assert (1.0 - 1.0) / phi == 0.0;
  }
}
