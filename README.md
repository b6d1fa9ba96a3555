# XGB-rhomut: R-μ-T relationships and XGBoost model selection, in Dafny

XGB-rhomut predicts the strength-reduction factor of a single-degree-of-freedom
structure: the strength ratio R (or the dynamic ratios ρ2, ρ3), given its period,
its ductility and a few site or hysteresis parameters. It has two parts:

* a library of closed-form R-μ-T relationships from the literature:
  * Eurocode 8 Annex B;
  * Vidic, Fajfar and Fischinger (1994);
  * Newmark and Hall;
  * Krawinkler and Nassar (1992);
  * Miranda (1993);
  * Guerrini et al. (2017).

  The library ships twice. The packaged copy is `xgbrhomut/r_mu_t`. The older
  copy is `src/rhomut`; its function names and error details differ.
* `XGBPredict`. It decides which pre-trained gradient-boosted model a prediction
  uses: "R", "ro_2" or "ro_3", with or without collapse. It names the model and
  scaler artifacts of that choice. It builds the feature record, and it turns the
  regressor's log-scale answer back with `expm1`.

This project models both parts and proves properties of them:

* Each relationship is a Dafny function, in its own module:
  * `Ec8`, `Vidic`, `NewmarkHall`, `KrawinklerNassar`, `Miranda` and `Guerrini`
    model the packaged copy;
  * `RhomutEc8`, `RhomutVidic`, `RhomutNewmarkHall`, `RhomutKrawinklerNassar`,
    `RhomutMiranda` and `RhomutGuerrini` model the older copy.
* Each older-copy module proves that it agrees with the packaged copy, or shows
  the input where the two differ.
* Python exceptions become `Outcomes.Result` values. An error keeps its
  exception class (`ValueError`, `TypeError`, `AttributeError`,
  `UnboundLocalError`, `IndexError`). The message is the source's own for the
  `raise` statements in the code; for an exception Python raises by itself
  (`AttributeError`, `TypeError`, `UnboundLocalError`, `IndexError`) the message
  is a placeholder.
* Floating-point `pow`, `numpy.exp` and `numpy.log` are abstract functions
  passed in as a `Transcendental.Math` record. The few laws a proof
  needs are collected in `Transcendental.Lawful`, and a lemma shows that some
  record satisfies them.
* `Text.Lower` models Python's `str.lower()` as far as matching against the
  ASCII keys of the tables is concerned.
* `XgbPrediction.XgbPredict` is a class whose two fields are fixed by its
  constructor, as in `XGBPredict.__init__`. Loading the artifacts with `joblib`,
  the scaler, the regressor and `expm1` are abstract functions of a
  `XgbPrediction.Backend`.

The repository's tests of the predictor (`tests/test_xgb_predict.py:27-71`)
expect a different interface from the one `XGBPredict.py` has. The model follows
`XGBPredict.py`:

* The tests build the predictor from an intensity-measure string and expect
  `ValueError` for an empty one. The constructor takes two booleans (`static`,
  `collapse`) and has no error case.
* The tests expect a dictionary with `strength_ratio` and `dispersion`.
  `make_prediction` returns one number: `expm1` of the regressor's first output.
* The tests expect `ValueError` when the dynamic ductility is missing in a
  non-collapse scenario. `make_prediction` never checks it and always builds
  all five feature columns, `actual_ductility_end` included.

## Model

| member | source | states |
|---|---|---|
| Ec8.StrengthRatio | xgbrhomut/r_mu_t/ec8.py:25-30 | the two-branch Eurocode 8 relationship; its properties are the lemmas below |
| Ec8.EqualDisplacementBeyondCorner | xgbrhomut/r_mu_t/ec8.py:27-28 | at or beyond the corner period the strength ratio is exactly mu |
| Ec8.LinearBelowCorner | xgbrhomut/r_mu_t/ec8.py:25-26 | below the corner period the strength ratio is (mu - 1) T/Tc + 1 |
| Ec8.RigidAtZeroPeriod | xgbrhomut/r_mu_t/ec8.py:25-26 | at period 0 the strength ratio is 1 |
| Ec8.ContinuousAtCorner | xgbrhomut/r_mu_t/ec8.py:25-28 | below the corner the gap to mu is (mu - 1)(Tc - T)/Tc, which vanishes as T reaches Tc |
| Ec8.BoundedAndMonotone | xgbrhomut/r_mu_t/ec8.py:25-28 | for mu >= 1, Tc > 0 and 0 <= T1 <= T2: 1 <= R(T1) <= R(T2) <= mu |
| Ec8.BelowCornerBounds | xgbrhomut/r_mu_t/ec8.py:25-26 | on the linear branch, with mu >= 1, the strength ratio lies in [1, mu] |
| Ec8.RepositoryTestValues | tests/test_rhomut.py:14-20 | mu = 3, Tc = 1 gives 2, 3 and 3 at T = 0.5, 1 and 1.5 |
| Vidic.CornerPeriod | xgbrhomut/r_mu_t/vidic.py:28-33 | the corner period T0 = 0.75 mu^0.2 Tc |
| Vidic.StrengthRatio | xgbrhomut/r_mu_t/vidic.py:28-40 | the two-branch Vidic relationship; its properties are the lemmas below |
| Vidic.CornerPeriodPositive | xgbrhomut/r_mu_t/vidic.py:33 | T0 > 0 for mu > 0 and Tc > 0 |
| Vidic.PlateauFromCorner | xgbrhomut/r_mu_t/vidic.py:37-38 | from T0 on the strength ratio is 1.1 (mu - 1)^0.95 + 1, the same for every period |
| Vidic.LinearBelowCorner | xgbrhomut/r_mu_t/vidic.py:35-36 | below T0 it is 1.1 (mu - 1)^0.95 T/T0 + 1, and 1 at period 0 |
| Vidic.ContinuousAtCorner | xgbrhomut/r_mu_t/vidic.py:35-38 | below T0 the gap to the plateau is 1.1 (mu - 1)^0.95 (T0 - T)/T0, so the branches meet at T0 |
| Vidic.BoundedAndMonotone | xgbrhomut/r_mu_t/vidic.py:33-38 | for mu >= 1, Tc > 0 and 0 <= T1 <= T2: 1 <= R(T1) <= R(T2) <= plateau |
| Vidic.PieceBoundedAndMonotone | xgbrhomut/r_mu_t/vidic.py:35-38 | the two-branch shape, linear up to T0 and flat after it, with a non-negative slope: bounded by 1 and the plateau, and non-decreasing |
| NewmarkHall.Beta | xgbrhomut/r_mu_t/newmark_hall.py:33-36 | beta = log(T/Ta)/log(Tb/Ta) with Ta = 1/33 and Tb = 0.125 |
| NewmarkHall.StrengthRatio | xgbrhomut/r_mu_t/newmark_hall.py:38-49 | the five-branch chain; the result is always bound, so the missing `else` never leaves it unassigned |
| NewmarkHall.Segments | xgbrhomut/r_mu_t/newmark_hall.py:38-47 | each segment's value: 1; (2mu - 1)^(beta/2); (2mu - 1)^0.5; (T/Tc) mu; mu, each under the tests that reach it |
| NewmarkHall.LinearSegment | xgbrhomut/r_mu_t/newmark_hall.py:44-45 | past Tb and Tc' and up to Tc the strength ratio is (T/Tc) mu |
| NewmarkHall.EmptyAccelerationSegment | xgbrhomut/r_mu_t/newmark_hall.py:40-43 | a Tc' below Tb acts exactly like Tc' = Tb: the (2mu - 1)^0.5 segment is never reached |
| NewmarkHall.ContinuousAtPeriodA | xgbrhomut/r_mu_t/newmark_hall.py:36-41 | at T = Ta beta is 0 and the strength ratio is 1, the value below Ta |
| NewmarkHall.ContinuousAtPeriodB | xgbrhomut/r_mu_t/newmark_hall.py:36-41 | at T = Tb beta is 1 and the strength ratio is (2mu - 1)^0.5, the next segment's value |
| NewmarkHall.ContinuousAtCorner | xgbrhomut/r_mu_t/newmark_hall.py:44-47 | at T = Tc the strength ratio is mu, the value beyond Tc |
| NewmarkHall.RepositoryTestValues | tests/test_rhomut.py:64-76 | mu = 5, Tc' = 0.5, Tc = 1 at T = 1/50, 0.1, 0.3, 0.8, 1.2 gives 1, 9^(beta/2), 9^0.5, 4, 5 |
| KrawinklerNassar.CoefficientsFor | xgbrhomut/r_mu_t/krawinkler_nassar.py:28-38 | the (a, b) table keyed by the hardening ratio |
| KrawinklerNassar.Exponent | xgbrhomut/r_mu_t/krawinkler_nassar.py:40 | c = T^a/(1 + T^a) + b/T |
| KrawinklerNassar.PowerLaw | xgbrhomut/r_mu_t/krawinkler_nassar.py:42 | R = (c (mu - 1) + 1)^(1/c) |
| KrawinklerNassar.StrengthRatio | xgbrhomut/r_mu_t/krawinkler_nassar.py:28-44 | the table lookup followed by the power law |
| KrawinklerNassar.CoefficientTable | xgbrhomut/r_mu_t/krawinkler_nassar.py:28-38 | 0 -> (1, 0.42), 2 -> (1, 0.37), 10 -> (0.8, 0.29); `ValueError` exactly for every other ratio |
| KrawinklerNassar.Dispatch | xgbrhomut/r_mu_t/krawinkler_nassar.py:28-44 | error iff ah is not 0, 2 or 10, of kind `ValueError`; otherwise the power law of the row, so nothing but (mu, T, a, b) is consulted |
| KrawinklerNassar.RejectsThreePercent | tests/test_rhomut.py:44-47 | ah = 3 raises `ValueError("Wrong hardening ratio")` |
| KrawinklerNassar.DefinedForPositivePeriods | xgbrhomut/r_mu_t/krawinkler_nassar.py:40-42 | for T > 0 every division is defined and c > 0 |
| KrawinklerNassar.UnitDuctility | xgbrhomut/r_mu_t/krawinkler_nassar.py:42 | for any legal ah, mu = 1 gives 1 |
| KrawinklerNassar.PositiveStrengthRatio | xgbrhomut/r_mu_t/krawinkler_nassar.py:40-44 | for T > 0, mu >= 1 and a legal ah the result is a positive number |
| Miranda.SiteOf | xgbrhomut/r_mu_t/miranda.py:30-37 | the site a name selects after lower-casing; `ValueError("Wrong site name!")` otherwise |
| Miranda.Phi | xgbrhomut/r_mu_t/miranda.py:30-35 | the divisor phi of rock, soft soil and alluvium |
| Miranda.StrengthRatio | xgbrhomut/r_mu_t/miranda.py:30-44 | a successful result is always >= 1 |
| Miranda.ClampedRatio | xgbrhomut/r_mu_t/miranda.py:36-44 | error iff the site is unknown, of kind `ValueError`; otherwise exactly max(1, (mu - 1)/phi + 1) |
| Miranda.SiteMatchingIgnoresCase | xgbrhomut/r_mu_t/miranda.py:30-37 | each site is selected iff the name equals its key ignoring case; error iff it matches none |
| Miranda.RepositoryTestSites | tests/test_rhomut.py:51-60 | "" is rejected and "Rock" selects rock |
| Miranda.PhiIgnoresGroundPeriodOnRockAndSoftSoil | xgbrhomut/r_mu_t/miranda.py:31-33 | phi of rock and soft soil is the same for any two ground periods Tg |
| Miranda.UnitDuctility | xgbrhomut/r_mu_t/miranda.py:39-42 | mu = 1 gives exactly 1 on every known site |
| Guerrini.HysteresisFor | xgbrhomut/r_mu_t/guerrini.py:33-45 | the (ahyst, Thyst) table keyed by the lower-cased case name |
| Guerrini.PredictedDuctility | xgbrhomut/r_mu_t/guerrini.py:47-52 | R + (R - 1)^2.1/((T/Thyst + ahyst)(T/Tc)^2.3) |
| Guerrini.Ductility | xgbrhomut/r_mu_t/guerrini.py:33-52 | a successful result is always >= 0 |
| Guerrini.Dispatch | xgbrhomut/r_mu_t/guerrini.py:33-52 | `ValueError` iff the case is none of fd, in and sd ignoring case; otherwise abs(mu - predicted ductility) with that case's coefficients |
| Guerrini.CaseTable | xgbrhomut/r_mu_t/guerrini.py:33-45 | fd -> (0.7, 0.055), in -> (0.2, 0.030), sd -> (0.0, 0.022), each iff the name equals its key ignoring case; `ValueError` iff none matches |
| Guerrini.RepositoryTestCases | tests/test_rhomut.py:22-31 | "FD", "IN", "SD" select their rows; "AA" raises `ValueError` in the table and in `ductility(4.0, 3.0, 1.0, "AA", 0.8)` |
| Guerrini.ZeroExactlyAtPrediction | xgbrhomut/r_mu_t/guerrini.py:50-52 | the demand is 0 iff mu equals the predicted ductility |
| Guerrini.ElasticStrengthRatio | xgbrhomut/r_mu_t/guerrini.py:50-52 | with R = 1 the demand is abs(mu - 1) |
| Guerrini.UnitStrengthRatioPredictsOne | xgbrhomut/r_mu_t/guerrini.py:50-52 | with R = 1 the predicted ductility is 1 for any coefficients |
| RhomutEc8.StrengthRatio | src/rhomut/ec8.py:24-29 | the older EC8 copy |
| RhomutEc8.Branches | src/rhomut/ec8.py:24-27 | T >= Tc gives mu, T < Tc gives (mu - 1) T/Tc + 1, and below a positive Tc the gap to mu is (mu - 1)(Tc - T)/Tc |
| RhomutEc8.AgreesWithPackaged | src/rhomut/ec8.py:24-29 | equal to the packaged EC8 function on every input |
| RhomutVidic.VidicEtAl1994 | src/rhomut/vidic.py:23-37 | the older Vidic copy |
| RhomutVidic.Branches | src/rhomut/vidic.py:29-34 | the plateau from T0 on, the linear branch below T0, and 1 at T = 0 |
| RhomutVidic.AgreesWithPackaged | src/rhomut/vidic.py:23-37 | equal to the packaged Vidic function on every input |
| RhomutNewmarkHall.NewmarkHall1992 | src/rhomut/newmark_hall.py:25-44 | the older chain; its final `raise ValueError` is unreachable, so the result is always a number |
| RhomutNewmarkHall.Segments | src/rhomut/newmark_hall.py:30-39 | T < 1/33 gives 1; then the transition, the (2mu - 1)^0.5 segment, (T/Tc) mu past Tcc up to Tc, and mu beyond every corner |
| RhomutNewmarkHall.AgreesWithPackaged | src/rhomut/newmark_hall.py:25-44 | equal to the packaged Newmark-Hall function on every input |
| RhomutKrawinklerNassar.Coefficients | src/rhomut/krawinkler_nassar.py:23-33 | the (a, b) table with a bare `ValueError` |
| RhomutKrawinklerNassar.KrawinklerNassar1992 | src/rhomut/krawinkler_nassar.py:23-40 | table lookup followed by the power law |
| RhomutKrawinklerNassar.TableAndUnitDuctility | src/rhomut/krawinkler_nassar.py:23-37 | the same three rows; for every mu, error iff ah is not 0, 2 or 10, of kind `ValueError`; mu = 1 gives 1 |
| RhomutKrawinklerNassar.AgreesWithPackaged | src/rhomut/krawinkler_nassar.py:23-40 | the same value as the packaged copy, or `ValueError` in both (only the message differs) |
| RhomutMiranda.SiteOf | src/rhomut/miranda.py:25-32 | the site a name selects, compared exactly, with a bare `ValueError` |
| RhomutMiranda.Miranda1993 | src/rhomut/miranda.py:25-40 | a result is >= 1, and an error happens iff the name is not exactly "rock", "soft-soil" or "alluvium" |
| RhomutMiranda.AgreesWithPackaged | src/rhomut/miranda.py:25-40 | a name the older copy accepts gives the packaged value; a lower-case name gives the same outcome in both |
| RhomutMiranda.CaseSensitive | src/rhomut/miranda.py:25-32 | "Rock" raises `ValueError` here but is accepted by the packaged copy |
| RhomutGuerrini.Hysteresis | src/rhomut/guerrini.py:33-43 | the (ahyst, Thyst) table keyed by the lower-cased case, with a bare `ValueError` |
| RhomutGuerrini.Predicted | src/rhomut/guerrini.py:45-48 | R + (R - 1)^c/((T/Thyst + ahyst)(T/Tc)^b) with b = 2.3 and c = 2.1 |
| RhomutGuerrini.Ductility | src/rhomut/guerrini.py:28-48 | a result is >= 0; `ValueError("Wrong input arguments")` iff there are not exactly four arguments |
| RhomutGuerrini.NonNumericDuctility | src/rhomut/guerrini.py:48 | a non-number mu with a known case and numeric periods raises `TypeError`, at the subtraction after the divisions |
| RhomutGuerrini.CaseTable | src/rhomut/guerrini.py:33-43 | each row iff the case equals its key ignoring case; `ValueError` iff it matches none of them |
| RhomutGuerrini.AgreesWithPackaged | src/rhomut/guerrini.py:28-48 | four well-typed arguments give the packaged value, or `ValueError` in both |
| RhomutGuerrini.SameFormula | src/rhomut/guerrini.py:45-48 | for the same coefficients the older closed form equals the packaged one |
| XgbPrediction.XgbPredict.constructor | xgbrhomut/XGBPredict.py:27-35 | static gives "R"; otherwise collapse gives "ro_3" and no collapse "ro_2"; collapse is stored unchanged; the result is valid |
| XgbPrediction.ModelFile | xgbrhomut/XGBPredict.py:60-66 | `models/{parameter}_xgb{suffix}.sav` |
| XgbPrediction.ScalerFile | xgbrhomut/XGBPredict.py:60-69 | `models/{parameter}_xgb{suffix}_scaler.sav` |
| XgbPrediction.FeatureRecord | xgbrhomut/XGBPredict.py:72-78 | five columns named period, damping, hardening_ratio, ductility, actual_ductility_end, in that order, holding the five inputs |
| XgbPrediction.XgbPredict.MakePrediction | xgbrhomut/XGBPredict.py:60-85 | `expm1` of the regressor's first output on the scaled record, using this configuration's artifacts; `IndexError` iff the output is empty |
| XgbPrediction.FourConfigurations | xgbrhomut/XGBPredict.py:27-35 | exactly (R, no collapse), (R, collapse), (ro_2, no collapse) and (ro_3, collapse) are valid |
| XgbPrediction.ArtifactsIdentifyConfiguration | xgbrhomut/XGBPredict.py:60-69 | for valid parameters, equal model names (or scaler names) mean equal configurations, and no model name is a scaler name |
| XgbPrediction.PredictorsShareArtifactsIffSameConfiguration | xgbrhomut/XGBPredict.py:27-69 | two constructed (valid) predictors load the same model, or the same scaler, iff their parameter and collapse flag agree |
| XgbPrediction.ScalerBesideModel | xgbrhomut/XGBPredict.py:66-69 | the scaler name is the model name with `_scaler` inserted before `.sav` |
| XgbPrediction.CollapseMarksModelFile | xgbrhomut/XGBPredict.py:60-66 | a model name ends in `_collapse.sav` iff the predictor is for collapse |
| XgbPrediction.PredictionUndoesLogTarget | xgbrhomut/XGBPredict.py:80-85 | for any log1p that expm1 inverts, log1p of a prediction is the regressor's first output |
| Text.Lower | xgbrhomut/r_mu_t/miranda.py:30 | the model keeps the length; Python can lengthen non-ASCII text, which never changes a match against an ASCII key |
| Text.LowerMatchesIgnoringCase | xgbrhomut/r_mu_t/guerrini.py:33-39 | for a lower-case ASCII key, lower(s) == key iff s equals the key letter by letter ignoring case |

## Left out

- Floating-point arithmetic. Reals are exact, so rounding, NaN and infinity are not modelled. That includes `numpy.log` of a non-positive period in Newmark-Hall's eagerly computed beta, which only warns.
- Python's `pow` of a negative base with a fractional exponent returns a complex number. In Newmark-Hall's transition segment the exponent `0.5 * beta` is a numpy float, so there a negative base gives NaN with a warning instead. `pow` is an abstract real function here.
- `ZeroDivisionError` and numpy's division warnings. Each relationship has a `requires` clause that excludes exactly the divisions its branch evaluates, so the model does not capture those exceptions.
- The test values that need concrete non-integer powers are not proved as numbers. Examples: Vidic's `round(...) == 3` and `== 5`, the Guerrini test values, and Newmark-Hall's 9^0.5 = 3.
- `str.lower()` is modelled for ASCII letters and the Kelvin sign (U+212A), the only characters whose lower case is an ASCII letter. Any other character may be lowered to itself.
- `joblib.load`, `pandas.DataFrame`, `scaler.transform`, `xgb.DMatrix`, `model.predict` and `numpy.expm1` are abstract functions of the backend. A missing or corrupt artifact file is not modelled.
- The package directory that artifact names are resolved against (`path.parents[0]`). Artifact names are given relative to it.
- The intensity-measure string, its `ValueError`, the dispersion in the result and the missing-ductility `ValueError` that `tests/test_xgb_predict.py` expects. `XGBPredict.py` does not contain them.
- The exact text Python gives to the exceptions it raises itself (`AttributeError`, `TypeError`, `UnboundLocalError`, `IndexError`). Only the exception class is kept, with a placeholder message.
- `examples/make_sample_prediction.py`, a demonstration script.
- Passing non-number values to the packaged functions. Python would raise `TypeError`, but their parameters are typed as reals here. Only the older Guerrini, which unpacks `*data` itself, models argument kinds.
- Newmark-Hall's `log(Tb/Ta) != 0` is a `requires` clause. `NewmarkHall.ContinuousAtPeriodA` proves that any lawful `log` satisfies it.
