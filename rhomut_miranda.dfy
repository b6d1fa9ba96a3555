/**
 * The older copy of the Miranda (1993) relationship, `src/rhomut/miranda.py`,
 * which compares the site name as given, without lower-casing it.
 */
module RhomutMiranda {

  import opened Outcomes
  import opened Transcendental
  import opened Text
  import Miranda

  /** The site a name selects, compared exactly; any other name raises a bare `ValueError`. */
  function SiteOf(site: string): Result<Miranda.Site> {
    if site == "rock" then Ok(Miranda.Rock)
    else if site == "soft-soil" then Ok(Miranda.SoftSoil)
    else if site == "alluvium" then Ok(Miranda.Alluvium)
    else Err(Error(ValueError, ""))
  }

  /** Every division has a non-zero divisor: the one in the site's phi, and phi itself. */
  predicate Defined(m: Math, site: Miranda.Site, mu: real, t: real, tg: real) {
    && t != 0.0
    && (match site
        case Rock => 10.0 * t - mu * t != 0.0
        case SoftSoil => 12.0 * t - mu * t != 0.0
        case Alluvium => tg != 0.0)
    && Phi(m, site, mu, t, tg) != 0.0
  }

  function Phi(m: Math, site: Miranda.Site, mu: real, t: real, tg: real): real
    requires t != 0.0
    requires site == Miranda.Rock ==> 10.0 * t - mu * t != 0.0
    requires site == Miranda.SoftSoil ==> 12.0 * t - mu * t != 0.0
    requires site == Miranda.Alluvium ==> tg != 0.0
  {
    match site
    case Rock =>
      1.0 + 1.0 / (10.0 * t - mu * t) - 1.0 / (2.0 * t) * m.exp(-3.0 / 2.0 * m.pow(m.log(t) - 3.0 / 5.0, 2.0))
    case SoftSoil =>
      1.0 + 1.0 / (12.0 * t - mu * t) - 2.0 / (5.0 * t) * m.exp(-2.0 * m.pow(m.log(t) - 1.0 / 5.0, 2.0))
    case Alluvium =>
      1.0 + tg / (3.0 * t) - 3.0 * tg / (4.0 * t) * m.exp(-3.0 * m.pow(m.log(t / tg) - 1.0 / 4.0, 2.0))
  }

  /** `Miranda_1993(mu, T, site, Tg)`: never below 1. */
  function Miranda1993(m: Math, mu: real, t: real, site: string, tg: real): (r: Result<real>)
    requires SiteOf(site).Ok? ==> Defined(m, SiteOf(site).value, mu, t, tg)
    ensures r.Ok? ==> r.value >= 1.0
    ensures r.Err? <==> site != "rock" && site != "soft-soil" && site != "alluvium"
  {
    match SiteOf(site)
    case Err(e) => Err(e)
    case Ok(s) =>
      var r := (mu - 1.0) / Phi(m, s, mu, t, tg) + 1.0;
      Ok(if r < 1.0 then 1.0 else r)
  }

  /**
   * Where this copy accepts a name, the packaged copy returns the same value;
   * on names already in lower case the two behave alike.
   */
  lemma AgreesWithPackaged(m: Math, mu: real, t: real, site: string, tg: real)
    requires Miranda.SiteOf(site).Ok? ==> Miranda.Defined(m, Miranda.SiteOf(site).value, mu, t, tg)
    ensures SiteOf(site).Ok? ==> Defined(m, SiteOf(site).value, mu, t, tg)
    ensures SiteOf(site).Ok? ==> Miranda1993(m, mu, t, site, tg) == Miranda.StrengthRatio(m, mu, t, site, tg)
    ensures Lower(site) == site ==>
      SameOutcome(Miranda1993(m, mu, t, site, tg), Miranda.StrengthRatio(m, mu, t, site, tg))
  {
    if SiteOf(site).Ok? {
      assert Lower(site) == site;
    }
  }

  /** Case matters here: "Rock" raises `ValueError`, while the packaged copy accepts it. */
  lemma CaseSensitive(m: Math, mu: real, t: real, tg: real)
    requires Miranda.Defined(m, Miranda.Rock, mu, t, tg)
    ensures Miranda1993(m, mu, t, "Rock", tg).Err?
    ensures Miranda1993(m, mu, t, "Rock", tg).error.kind == ValueError
    ensures Miranda.StrengthRatio(m, mu, t, "Rock", tg).Ok?
  {
    Miranda.RepositoryTestSites();
  }
}
