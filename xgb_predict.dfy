/**
 * The selection logic of `xgbrhomut/XGBPredict.py`: which strength-ratio
 * parameter a predictor is for, which model and scaler artifacts it loads,
 * and the feature record it hands to them. Loading the artifacts, scaling
 * and the gradient-boosted regressor are foreign calls and are kept
 * abstract in a `Backend`.
 */
module XgbPrediction {

  import opened Outcomes

  /** One named column of the single-row feature table. */
  datatype Feature = Feature(name: string, value: real)

  /**
   * The foreign calls, each keyed by the artifact file it is loaded from:
   * the scaler's `transform`, the regressor's `predict` and numpy's `expm1`.
   */
  datatype Backend = Backend(
    transform: (string, seq<Feature>) -> seq<real>,
    predict: (string, seq<real>) -> seq<real>,
    expm1: real -> real)

  /** The column names of the feature table, in the order the regressor was trained on. */
  const FeatureNames: seq<string> :=
    ["period", "damping", "hardening_ratio", "ductility", "actual_ductility_end"]

  /** The strength-ratio parameters there are models for. */
  predicate IsParameter(parameter: string) {
    parameter == "R" || parameter == "ro_2" || parameter == "ro_3"
  }

  /** The configurations a predictor can have: "ro_2" only without collapse, "ro_3" only with it. */
  predicate ValidConfiguration(parameter: string, collapse: bool) {
    && IsParameter(parameter)
    && (parameter == "ro_2" ==> !collapse)
    && (parameter == "ro_3" ==> collapse)
  }

  /** numpy's element-wise application of a unary function. */
  function Elementwise(f: real -> real, s: seq<real>): (r: seq<real>)
    ensures |r| == |s|
    ensures forall i :: 0 <= i < |s| ==> r[i] == f(s[i])
  {
    seq(|s|, i requires 0 <= i < |s| => f(s[i]))
  }

  /** The artifact-name suffix of a configuration. */
  function Suffix(collapse: bool): string {
    if collapse then "_collapse" else ""
  }

  /** `models/{parameter}_xgb{suffix}.sav`. */
  function ModelFile(parameter: string, collapse: bool): string {
    "models/" + parameter + "_xgb" + Suffix(collapse) + ".sav"
  }

  /** `models/{parameter}_xgb{suffix}_scaler.sav`. */
  function ScalerFile(parameter: string, collapse: bool): string {
    "models/" + parameter + "_xgb" + Suffix(collapse) + "_scaler.sav"
  }

  /** The single-row feature table: five named columns, always including the dynamic ductility. */
  function FeatureRecord(period: real, damping: real, hardeningRatio: real, ductility: real,
                         dynamicDuctility: real): (r: seq<Feature>)
    ensures |r| == |FeatureNames|
    ensures forall i :: 0 <= i < |r| ==> r[i].name == FeatureNames[i]
    ensures r[0].value == period && r[1].value == damping && r[2].value == hardeningRatio
    ensures r[3].value == ductility && r[4].value == dynamicDuctility
  {
    [Feature("period", period), Feature("damping", damping), Feature("hardening_ratio", hardeningRatio),
     Feature("ductility", ductility), Feature("actual_ductility_end", dynamicDuctility)]
  }

  /** A predictor for one strength-ratio parameter; both fields are fixed by the constructor. */
  class XgbPredict {
    const parameter: string
    const collapse: bool

    /** "ro_2" is only ever for non-collapse scenarios and "ro_3" only for collapse ones. */
    predicate Valid() {
      ValidConfiguration(parameter, collapse)
    }

    /** `static` (here `isStatic`) selects "R"; otherwise `collapse` selects "ro_3" or "ro_2". */
    constructor(isStatic: bool, collapse: bool)
      ensures isStatic ==> parameter == "R"
      ensures !isStatic && collapse ==> parameter == "ro_3"
      ensures !isStatic && !collapse ==> parameter == "ro_2"
      ensures this.collapse == collapse
      ensures Valid()
    {
      if isStatic {
        parameter := "R";
      } else {
        if collapse {
          parameter := "ro_3";
        } else {
          parameter := "ro_2";
        }
      }
      this.collapse := collapse;
    }

    /**
     * `make_prediction`: scale the feature record with the scaler artifact,
     * run the model artifact on it and return `expm1` of the first output;
     * an empty output makes the final indexing raise `IndexError`.
     */
    function MakePrediction(backend: Backend, period: real, damping: real, hardeningRatio: real,
                            ductility: real, dynamicDuctility: real): (r: Result<real>)
      ensures var x := backend.transform(ScalerFile(parameter, collapse),
                                         FeatureRecord(period, damping, hardeningRatio, ductility, dynamicDuctility));
              var out := backend.predict(ModelFile(parameter, collapse), x);
              && (r.Err? <==> out == [])
              && (r.Err? ==> r.error.kind == IndexError)
              && (r.Ok? ==> r.value == backend.expm1(out[0]))
    {
      var record := FeatureRecord(period, damping, hardeningRatio, ductility, dynamicDuctility);
      var x := backend.transform(ScalerFile(parameter, collapse), record);
      var prediction := Elementwise(backend.expm1, backend.predict(ModelFile(parameter, collapse), x));
      if |prediction| == 0 then Err(Error(IndexError, "index 0 is out of bounds for axis 0 with size 0"))
      else Ok(prediction[0])
    }
  }

  /** Exactly four configurations are valid; the constructor produces R with either collapse flag, ro_2 without and ro_3 with. */
  lemma FourConfigurations(parameter: string, collapse: bool)
    ensures ValidConfiguration(parameter, collapse) <==>
      (parameter, collapse) in [("R", false), ("R", true), ("ro_2", false), ("ro_3", true)]
  {
  }

  /** Over the valid parameters, a model file name determines the configuration, and so does a scaler file name. */
  lemma ArtifactsIdentifyConfiguration(p1: string, c1: bool, p2: string, c2: bool)
    requires IsParameter(p1) && IsParameter(p2)
    ensures ModelFile(p1, c1) == ModelFile(p2, c2) <==> p1 == p2 && c1 == c2
    ensures ScalerFile(p1, c1) == ScalerFile(p2, c2) <==> p1 == p2 && c1 == c2
    ensures ModelFile(p1, c1) != ScalerFile(p2, c2)
  {
    if ModelFile(p1, c1) == ModelFile(p2, c2) {
      SameNameSameConfiguration(ModelFile(p1, c1), p1, c1, p2, c2, ".sav");
    }
    if ScalerFile(p1, c1) == ScalerFile(p2, c2) {
      SameNameSameConfiguration(ScalerFile(p1, c1), p1, c1, p2, c2, "_scaler.sav");
    }
  }

  /** Two valid predictors load the same model, or the same scaler, exactly when they have the same configuration. */
  lemma PredictorsShareArtifactsIffSameConfiguration(x: XgbPredict, y: XgbPredict)
    requires x.Valid() && y.Valid()
    ensures ModelFile(x.parameter, x.collapse) == ModelFile(y.parameter, y.collapse)
      <==> x.parameter == y.parameter && x.collapse == y.collapse
    ensures ScalerFile(x.parameter, x.collapse) == ScalerFile(y.parameter, y.collapse)
      <==> x.parameter == y.parameter && x.collapse == y.collapse
  {
    ArtifactsIdentifyConfiguration(x.parameter, x.collapse, y.parameter, y.collapse);
  }

  /** The step shared by both artifact kinds: the name's length fixes the suffix, and then the parameter is read back. */
  lemma SameNameSameConfiguration(f: string, p1: string, c1: bool, p2: string, c2: bool, extension: string)
    requires IsParameter(p1) && IsParameter(p2)
    requires f == "models/" + p1 + "_xgb" + Suffix(c1) + extension
    requires f == "models/" + p2 + "_xgb" + Suffix(c2) + extension
    ensures p1 == p2 && c1 == c2
  {
    assert |f| == 11 + |p1| + |Suffix(c1)| + |extension| == 11 + |p2| + |Suffix(c2)| + |extension|;
    assert c1 == c2;
    ParameterReadBack(f, p1, "_xgb" + Suffix(c1) + extension);
    ParameterReadBack(f, p2, "_xgb" + Suffix(c2) + extension);
  }

  /** The parameter sits right after `models/` in an artifact name. */
  lemma ParameterReadBack(f: string, parameter: string, rest: string)
    requires f == "models/" + parameter + rest
    ensures |f| >= 7 + |parameter| && f[7..7 + |parameter|] == parameter
  {
    assert f == "models/" + (parameter + rest);
    assert f[7..] == parameter + rest;
    assert f[7..7 + |parameter|] == f[7..][..|parameter|];
  }

  /** The scaler file is the model file with `_scaler` inserted before the `.sav` extension. */
  lemma ScalerBesideModel(parameter: string, collapse: bool)
    ensures |ModelFile(parameter, collapse)| >= 4
    ensures ModelFile(parameter, collapse)[|ModelFile(parameter, collapse)| - 4..] == ".sav"
    ensures ScalerFile(parameter, collapse)
         == ModelFile(parameter, collapse)[..|ModelFile(parameter, collapse)| - 4] + "_scaler.sav"
  {
  }

  /** Whatever the parameter, the model file name ends in `_collapse.sav` exactly for collapse scenarios. */
  lemma CollapseMarksModelFile(parameter: string, collapse: bool)
    ensures var f := ModelFile(parameter, collapse);
            |f| >= 13 && (f[|f| - 13..] == "_collapse.sav" <==> collapse)
  {
    var f := ModelFile(parameter, collapse);
    if collapse {
      assert f == ("models/" + parameter + "_xgb") + "_collapse.sav";
    } else {
      assert f == ("models/" + parameter) + "_xgb.sav";
      assert f[|f| - 8] == '_' != "_collapse.sav"[5];
    }
  }

  /**
   * The regressor answers on the log(1 + y) scale and `expm1` brings it back:
   * for any `log1p` that `expm1` inverts, log1p of a prediction is the
   * regressor's first output.
   */
  lemma PredictionUndoesLogTarget(x: XgbPredict, backend: Backend, log1p: real -> real, period: real,
                                  damping: real, hardeningRatio: real, ductility: real, dynamicDuctility: real)
    requires forall y :: log1p(backend.expm1(y)) == y
    ensures var r := x.MakePrediction(backend, period, damping, hardeningRatio, ductility, dynamicDuctility);
            r.Ok? ==> log1p(r.value) == backend.predict(ModelFile(x.parameter, x.collapse),
              backend.transform(ScalerFile(x.parameter, x.collapse),
                                FeatureRecord(period, damping, hardeningRatio, ductility, dynamicDuctility)))[0]
  {
  }
}
