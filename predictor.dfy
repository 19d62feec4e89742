/**
 * Scoring and stratification of a questionnaire submission (app/models/predictor.py).
 *
 * The pre-trained classifier is opaque: it is a deterministic function from a
 * feature vector to either a raised exception or the probabilities of the two
 * classes. The model file on disk is a parameter of the loader (`Artifact`), and
 * the module-level `_model` is the one field of the `ModelLoader` class.
 */
module Predictor {
  import opened Wrappers

  /** A probability: a real number in [0, 1]. */
  type Prob = r: real | 0.0 <= r <= 1.0

  /** The two kinds of Python exception the callers of `predict_risk` tell apart. */
  datatype ExceptionKind = ValueError | OtherException

  /** One call of the classifier's `predict_proba` on one feature vector: it raises,
      or it gives the probability of the negative and of the positive class. */
  datatype ModelOutput = Raises(kind: ExceptionKind) | Proba(negative: Prob, positive: Prob)

  /** The classifier: same vector, same output. */
  type Classifier = seq<real> -> ModelOutput

  /** What `load_model` finds at the model path: no file, a file that `joblib.load`
      cannot read (it raises), or a stored classifier. */
  datatype Artifact = Missing | Unreadable(kind: ExceptionKind) | Stored(model: Classifier)

  /** Everything `predict_risk` can raise. */
  datatype Error =
    | WrongResponseCount(count: nat)
    | InvalidAge(age: int)
    | InvalidSex(sex: string)
    | ModelFileNotFound
    | ModelLoadFailed(kind: ExceptionKind)
    | PredictionFailed(kind: ExceptionKind)

  /** True when the error reaches the caller as a `ValueError` (or a subclass of it);
      `FileNotFoundError` is an `OSError` and is not one. */
  predicate IsValueError(e: Error)
  {
    match e
    case WrongResponseCount(_) => true
    case InvalidAge(_) => true
    case InvalidSex(_) => true
    case ModelFileNotFound => false
    case ModelLoadFailed(k) => k == ValueError
    case PredictionFailed(k) => k == ValueError
  }

  // ---------------------------------------------------------------------------
  // Risk stratification (get_risk_level, get_interpretation)
  // ---------------------------------------------------------------------------

  datatype RiskLevel = Low | Medium | High
  {
    /** The string `get_risk_level` returns. */
    function Name(): string
    {
      match this
      case Low => "Low"
      case Medium => "Medium"
      case High => "High"
    }

    /** Position of the band on the risk scale. */
    function Rank(): nat
    {
      match this
      case Low => 0
      case Medium => 1
      case High => 2
    }
  }

  datatype Interpretation = MuyBajo | Bajo | Moderado | Alto | MuyAlto
  {
    /** The string `get_interpretation` returns. */
    function Text(): string
    {
      match this
      case MuyBajo => "Muy bajo riesgo de trastornos del neurodesarrollo"
      case Bajo => "Riesgo bajo de trastornos del neurodesarrollo"
      case Moderado => "Riesgo moderado de trastornos del neurodesarrollo"
      case Alto => "Riesgo alto de trastornos del neurodesarrollo"
      case MuyAlto => "Riesgo muy alto de trastornos del neurodesarrollo"
    }

    /** Position of the band on the risk scale. */
    function Rank(): nat
    {
      match this
      case MuyBajo => 0
      case Bajo => 1
      case Moderado => 2
      case Alto => 3
      case MuyAlto => 4
    }
  }

  function GetRiskLevel(probability: real): RiskLevel
  {
    if probability < 0.3 then Low
    else if probability < 0.7 then Medium
    else High
  }

  function GetInterpretation(probability: real): Interpretation
  {
    if probability < 0.2 then MuyBajo
    else if probability < 0.4 then Bajo
    else if probability < 0.6 then Moderado
    else if probability < 0.8 then Alto
    else MuyAlto
  }

  /** The three risk levels partition the real line at 0.3 and 0.7; each boundary
      belongs to the band above it. */
  lemma RiskLevelBands(p: real)
    ensures GetRiskLevel(p) == Low <==> p < 0.3
    ensures GetRiskLevel(p) == Medium <==> 0.3 <= p < 0.7
    ensures GetRiskLevel(p) == High <==> 0.7 <= p
  {
  }

  /** The five interpretations partition the real line at 0.2, 0.4, 0.6 and 0.8 into
      half-open bands; each boundary belongs to the band above it. */
  lemma InterpretationBands(p: real)
    ensures GetInterpretation(p) == MuyBajo <==> p < 0.2
    ensures GetInterpretation(p) == Bajo <==> 0.2 <= p < 0.4
    ensures GetInterpretation(p) == Moderado <==> 0.4 <= p < 0.6
    ensures GetInterpretation(p) == Alto <==> 0.6 <= p < 0.8
    ensures GetInterpretation(p) == MuyAlto <==> 0.8 <= p
  {
  }

  /** A higher probability never gives a lower risk level. */
  lemma RiskLevelMonotone(p: real, q: real)
    requires p <= q
    ensures GetRiskLevel(p).Rank() <= GetRiskLevel(q).Rank()
  {
  }

  /** A higher probability never gives a lower interpretation. */
  lemma InterpretationMonotone(p: real, q: real)
    requires p <= q
    ensures GetInterpretation(p).Rank() <= GetInterpretation(q).Rank()
  {
  }

  /** The five interpretations are five different strings, so the text alone tells
      the band. */
  lemma InterpretationTextsDistinct(a: Interpretation, b: Interpretation)
    requires a.Text() == b.Text()
    ensures a == b
  {
  }

  // ---------------------------------------------------------------------------
  // Feature vectors (prepare_features_40, prepare_features_42)
  // ---------------------------------------------------------------------------

  /** Python's `float(b)` on a bool. */
  function BoolFeature(b: bool): real
  {
    if b then 1.0 else 0.0
  }

  /** The compact layout: one 0.0/1.0 entry per response, in order. */
  function PrepareFeatures40(responses: seq<bool>): (f: seq<real>)
    ensures |f| == |responses|
    ensures forall i :: 0 <= i < |f| ==> (f[i] == 1.0 <==> responses[i]) && (f[i] == 0.0 <==> !responses[i])
  {
    seq(|responses|, i requires 0 <= i < |responses| => BoolFeature(responses[i]))
  }

  /** The sex column of the extended layout: 1.0 for exactly "M", 0.0 for anything else. */
  function SexFeature(sex: string): real
  {
    if sex == "M" then 1.0 else 0.0
  }

  /** The extended layout: the compact layout, then the age, then the sex flag. */
  function PrepareFeatures42(responses: seq<bool>, age: int, sex: string): (f: seq<real>)
    ensures |f| == |responses| + 2
    ensures f[..|responses|] == PrepareFeatures40(responses)
    ensures f[|responses|] == age as real
    ensures f[|responses| + 1] == 1.0 <==> sex == "M"
    ensures f[|responses| + 1] == 0.0 <==> sex != "M"
  {
    var compact := PrepareFeatures40(responses);
    var f := compact + [age as real, SexFeature(sex)];
    assert f[..|responses|] == compact;
    f
  }

  // ---------------------------------------------------------------------------
  // Scoring (predict_risk) and the memoised loader (load_model)
  // ---------------------------------------------------------------------------

  /** The dictionary `predict_risk` returns. */
  datatype Prediction = Prediction(probability: Prob, riskLevel: RiskLevel, confidence: Prob, interpretation: Interpretation)

  /** The outcome of `predict_risk` together with the feature vectors passed to
      `predict_proba`, one per call, in call order. */
  datatype Scoring = Scoring(result: Result<Prediction, Error>, calls: seq<seq<real>>)

  /** Python's `max` over the two class probabilities. */
  function Max(a: real, b: real): (m: real)
    ensures a <= m && b <= m
    ensures m == a || m == b
  {
    if a < b then b else a
  }

  /** The argument checks of `predict_risk`, in the order the source makes them; the
      first failing one is reported. */
  function CheckInputs(responses: seq<bool>, age: int, sex: string): (r: Option<Error>)
    ensures r.None? <==> |responses| == 40 && 0 <= age <= 120 && (sex == "M" || sex == "F")
    ensures |responses| != 40 ==> r == Some(WrongResponseCount(|responses|))
    ensures |responses| == 40 && !(0 <= age <= 120) ==> r == Some(InvalidAge(age))
    ensures |responses| == 40 && 0 <= age <= 120 && sex != "M" && sex != "F" ==> r == Some(InvalidSex(sex))
    ensures r.Some? ==> IsValueError(r.value)
  {
    if |responses| != 40 then Some(WrongResponseCount(|responses|))
    else if age < 0 || age > 120 then Some(InvalidAge(age))
    else if sex != "M" && sex != "F" then Some(InvalidSex(sex))
    else None
  }

  /** `load_model` on the cached `_model` and the file at the model path. */
  function Load(cache: Option<Classifier>, artifact: Artifact): Result<Classifier, Error>
  {
    if cache.Some? then Success(cache.value)
    else match artifact
      case Missing => Failure(ModelFileNotFound)
      case Unreadable(k) => Failure(ModelLoadFailed(k))
      case Stored(m) => Success(m)
  }

  /** `_model` after `load_model`: set on the first successful load, never changed again. */
  function CacheAfterLoad(cache: Option<Classifier>, artifact: Artifact): Option<Classifier>
  {
    if cache.Some? then cache
    else if artifact.Stored? then Some(artifact.model)
    else None
  }

  /** The stratified result built from the class probabilities of one vector. */
  function PredictionFrom(out: ModelOutput): Prediction
    requires out.Proba?
  {
    Prediction(out.positive, GetRiskLevel(out.positive), Max(out.negative, out.positive), GetInterpretation(out.positive))
  }

  /** The scoring steps of `predict_risk` once a model is at hand: the compact vector
      first; the extended vector only when that call raised; then the vector that
      worked is scored once more for the confidence. A second raise propagates. */
  function Score(model: Classifier, responses: seq<bool>, age: int, sex: string): Scoring
  {
    var compact := PrepareFeatures40(responses);
    match model(compact)
    case Proba(_, _) => Scoring(Success(PredictionFrom(model(compact))), [compact, compact])
    case Raises(_) =>
      var extended := PrepareFeatures42(responses, age, sex);
      match model(extended)
      case Raises(k) => Scoring(Failure(PredictionFailed(k)), [compact, extended])
      case Proba(_, _) => Scoring(Success(PredictionFrom(model(extended))), [compact, extended, extended])
  }

  /** `predict_risk`: argument checks, then `load_model`, then scoring. */
  function Predict(cache: Option<Classifier>, artifact: Artifact, responses: seq<bool>, age: int, sex: string): Scoring
  {
    match CheckInputs(responses, age, sex)
    case Some(e) => Scoring(Failure(e), [])
    case None =>
      match Load(cache, artifact)
      case Failure(e) => Scoring(Failure(e), [])
      case Success(model) => Score(model, responses, age, sex)
  }

  /** `_model` after `predict_risk`: the loader runs only once the arguments passed. */
  function CacheAfterPredict(cache: Option<Classifier>, artifact: Artifact, responses: seq<bool>, age: int, sex: string): Option<Classifier>
  {
    if CheckInputs(responses, age, sex).Some? then cache else CacheAfterLoad(cache, artifact)
  }

  /** Once a model is loaded, it is the one every later load returns, whatever is on
      disk then; a failed load leaves nothing cached. */
  lemma LoadIsMemoised(cache: Option<Classifier>, first: Artifact, later: Artifact)
    ensures Load(cache, first).Success? ==>
              CacheAfterLoad(cache, first) == Some(Load(cache, first).value)
              && Load(CacheAfterLoad(cache, first), later) == Load(cache, first)
              && CacheAfterLoad(CacheAfterLoad(cache, first), later) == CacheAfterLoad(cache, first)
    ensures Load(cache, first).Failure? ==> cache.None? && CacheAfterLoad(cache, first).None?
    ensures cache.None? && first.Missing? ==> Load(cache, first) == Failure(ModelFileNotFound)
  {
  }

  /** Invalid arguments are reported before the model is loaded: the classifier is
      never called and `_model` is left as it was. */
  lemma ValidationPrecedesLoading(cache: Option<Classifier>, artifact: Artifact, responses: seq<bool>, age: int, sex: string)
    requires CheckInputs(responses, age, sex).Some?
    ensures Predict(cache, artifact, responses, age, sex) == Scoring(Failure(CheckInputs(responses, age, sex).value), [])
    ensures CacheAfterPredict(cache, artifact, responses, age, sex) == cache
    ensures IsValueError(Predict(cache, artifact, responses, age, sex).result.error)
  {
  }

  /** The fallback is bounded: the compact vector is tried first; the extended vector
      is tried once, and only when the compact call raised; when it raises too the
      error propagates with no further attempt. */
  lemma FallbackIsBounded(model: Classifier, responses: seq<bool>, age: int, sex: string)
    ensures var s := Score(model, responses, age, sex);
      var compact, extended := PrepareFeatures40(responses), PrepareFeatures42(responses, age, sex);
      && 2 <= |s.calls| <= 3
      && s.calls[0] == compact
      && (extended in s.calls <==> model(compact).Raises?)
      && (forall v :: v in s.calls ==> v == compact || v == extended)
      && (s.result.Failure? <==> model(compact).Raises? && model(extended).Raises?)
      && (s.result.Failure? ==> s.calls == [compact, extended] && s.result.error == PredictionFailed(model(extended).kind))
  {
    var compact, extended := PrepareFeatures40(responses), PrepareFeatures42(responses, age, sex);
    assert |compact| != |extended|;
  }

  /** In a successful result the fields agree: probability and confidence come from
      the same vector (the last one scored), the confidence is the larger class
      probability, and level and interpretation are those of the probability. */
  lemma PredictionIsConsistent(model: Classifier, responses: seq<bool>, age: int, sex: string)
    ensures var s := Score(model, responses, age, sex);
      s.result.Success? ==>
        var p, used := s.result.value, s.calls[|s.calls| - 1];
        && used == s.calls[|s.calls| - 2]
        && model(used).Proba?
        && p.probability == model(used).positive
        && p.confidence == Max(model(used).negative, model(used).positive)
        && p.probability <= p.confidence
        && p.riskLevel == GetRiskLevel(p.probability)
        && p.interpretation == GetInterpretation(p.probability)
  {
  }

  /** A successful prediction implies the arguments passed every check of
      `predict_risk`, and the probabilities it reports lie in [0, 1]. */
  lemma SuccessMeansValidInputs(cache: Option<Classifier>, artifact: Artifact, responses: seq<bool>, age: int, sex: string)
    ensures var s := Predict(cache, artifact, responses, age, sex);
      s.result.Success? ==>
        && |responses| == 40 && 0 <= age <= 120 && (sex == "M" || sex == "F")
        && 0.0 <= s.result.value.probability <= 1.0
        && 0.0 <= s.result.value.confidence <= 1.0
  {
  }

  /** `predict_risk` accepts age 0, which both request schemas reject. */
  lemma PredictAcceptsAgeZero(responses: seq<bool>, sex: string)
    requires |responses| == 40 && (sex == "M" || sex == "F")
    ensures CheckInputs(responses, 0, sex).None?
    ensures CheckInputs(responses, 121, sex) == Some(InvalidAge(121))
  {
  }

  /** The module-level `_model` of predictor.py. */
  class ModelLoader {
    var model: Option<Classifier>

    constructor ()
      ensures model.None?
    {
      model := None;
    }

    /** `load_model`: return the cached model, or read the artifact and cache it. */
    method LoadModel(artifact: Artifact) returns (r: Result<Classifier, Error>)
      modifies this
      ensures r == Load(old(model), artifact)
      ensures model == CacheAfterLoad(old(model), artifact)
    {
      if model.Some? {
        return Success(model.value);
      }
      match artifact {
        case Missing =>
          r := Failure(ModelFileNotFound);
        case Unreadable(k) =>
          r := Failure(ModelLoadFailed(k));
        case Stored(m) =>
          model := Some(m);
          r := Success(m);
      }
    }

    /** `predict_risk`; `calls` lists the vectors handed to `predict_proba`. */
    method PredictRisk(responses: seq<bool>, age: int, sex: string, artifact: Artifact)
      returns (r: Result<Prediction, Error>, calls: seq<seq<real>>)
      modifies this
      ensures Scoring(r, calls) == Predict(old(model), artifact, responses, age, sex)
      ensures model == CacheAfterPredict(old(model), artifact, responses, age, sex)
    {
      calls := [];
      if |responses| != 40 {
        r := Failure(WrongResponseCount(|responses|));
        return;
      }
      if age < 0 || age > 120 {
        r := Failure(InvalidAge(age));
        return;
      }
      if sex != "M" && sex != "F" {
        r := Failure(InvalidSex(sex));
        return;
      }
      var loaded := LoadModel(artifact);
      if loaded.Failure? {
        r := Failure(loaded.error);
        return;
      }
      var m := loaded.value;
      var features := PrepareFeatures40(responses);
      var out := m(features);
      calls := [features];
      if out.Raises? {
        features := PrepareFeatures42(responses, age, sex);
        out := m(features);
        calls := calls + [features];
        if out.Raises? {
          r := Failure(PredictionFailed(out.kind));
          return;
        }
      }
      var probability := out.positive;
      var level := GetRiskLevel(probability);
      var again := m(features);
      calls := calls + [features];
      var confidence := Max(again.negative, again.positive);
      r := Success(Prediction(probability, level, confidence, GetInterpretation(probability)));
    }
  }
}
