/**
 * Request and response schemas of the submit endpoint (app/schemas/submit.py).
 *
 * A validator returns the accepted value or the list of fields that failed, in field
 * declaration order, as the schema library reports every failing field at once.
 */
module SubmitSchemas {
  import opened Wrappers
  import opened Strings
  import opened EvaluacionRecord
  import Predictor

  datatype Field = Edad | Sexo | Respuestas

  /** A validated `EvaluacionRequest`. */
  datatype EvaluacionRequest = EvaluacionRequest(edad: int, sexo: string, respuestas: seq<bool>, aceptoConsentimiento: bool)

  /** `Field(ge=1, le=120)` on `edad`. */
  predicate EdadInRange(edad: int)
  {
    1 <= edad <= 120
  }

  /** The pattern `^[MF]$` on `sexo`: one character, M or F. */
  predicate MatchesSexoPattern(v: string)
  {
    |v| == 1 && (v[0] == 'M' || v[0] == 'F')
  }

  /** `sexo`: the pattern, then `validate_sex`, which checks membership in
      ['M', 'F'] and returns `v.upper()`. */
  function ValidateSexo(v: string): (r: Result<string, Field>)
    ensures r.Success? <==> v == "M" || v == "F"
    ensures r.Success? ==> r.value == v
    ensures r.Failure? ==> r.error == Sexo
  {
    if !MatchesSexoPattern(v) then Failure(Sexo)
    else if v != "M" && v != "F" then Failure(Sexo)
    else Success(Upper(v))
  }

  /** `respuestas`: `min_items=40, max_items=40`, then `validate_responses`
      (length exactly 40). */
  function ValidateRespuestas(v: seq<bool>): (r: Result<seq<bool>, Field>)
    ensures r.Success? <==> |v| == 40
    ensures r.Success? ==> r.value == v
  {
    if !(40 <= |v| <= 40) then Failure(Respuestas)
    else if |v| != 40 then Failure(Respuestas)
    else Success(v)
  }

  /** Validation of a whole `EvaluacionRequest`. `acepto_consentimiento` is only
      required to be a bool: its value is not checked. */
  function ValidateEvaluacionRequest(edad: int, sexo: string, respuestas: seq<bool>, aceptoConsentimiento: bool)
    : (r: Result<EvaluacionRequest, seq<Field>>)
    ensures r.Success? <==> EdadInRange(edad) && (sexo == "M" || sexo == "F") && |respuestas| == 40
    ensures r.Success? ==> r.value == EvaluacionRequest(edad, sexo, respuestas, aceptoConsentimiento)
    ensures r.Failure? ==>
      && (Edad in r.error <==> !EdadInRange(edad))
      && (Sexo in r.error <==> sexo != "M" && sexo != "F")
      && (Respuestas in r.error <==> |respuestas| != 40)
  {
    var s, q := ValidateSexo(sexo), ValidateRespuestas(respuestas);
    var errors := (if EdadInRange(edad) then [] else [Edad])
                  + (if s.Success? then [] else [Sexo])
                  + (if q.Success? then [] else [Respuestas]);
    if errors == [] then Success(EvaluacionRequest(edad, s.value, q.value, aceptoConsentimiento))
    else Failure(errors)
  }

  /** Lowercase sex is refused by this schema, though the predict schema takes it. */
  lemma LowercaseSexoRejected()
    ensures ValidateSexo("m").Failure? && ValidateSexo("f").Failure?
    ensures ValidateSexo("M") == Success("M") && ValidateSexo("F") == Success("F")
  {
  }

  /** `PredictionResult`: `probability` and `confidence` within [0, 1]. */
  datatype PredictionResult = PredictionResult(probability: real, riskLevel: string, confidence: real, interpretation: string)

  predicate ValidPredictionResult(p: PredictionResult)
  {
    0.0 <= p.probability <= 1.0 && 0.0 <= p.confidence <= 1.0
  }

  /** `PredictionResult(**prediction_result)`: the fields of the dictionary
      `predict_risk` returns, level and interpretation as strings. */
  function ToPredictionResult(p: Predictor.Prediction): (r: PredictionResult)
    ensures ValidPredictionResult(r)
    ensures r.probability == p.probability && r.confidence == p.confidence
    ensures r.riskLevel == Predictor.GetRiskLevel(r.probability).Name() <==> p.riskLevel == Predictor.GetRiskLevel(p.probability)
    ensures r.riskLevel == p.riskLevel.Name() && r.interpretation == p.interpretation.Text()
  {
    PredictionResult(p.probability, p.riskLevel.Name(), p.confidence, p.interpretation.Text())
  }

  /** `EvaluacionSummary`, read from a stored row. */
  datatype EvaluacionSummary = EvaluacionSummary(
    id: int, edad: int, sexo: string, riesgoEstimado: real, fecha: Timestamp, aceptoConsentimiento: bool)

  /** `EvaluacionDetail`: every summary field, and the responses. */
  datatype EvaluacionDetail = EvaluacionDetail(
    id: int, edad: int, sexo: string, riesgoEstimado: real, fecha: Timestamp, aceptoConsentimiento: bool,
    respuestas: seq<bool>)
  {
    /** The summary fields of a detail. */
    function Summary(): EvaluacionSummary
    {
      EvaluacionSummary(id, edad, sexo, riesgoEstimado, fecha, aceptoConsentimiento)
    }
  }

  /** A row that has been inserted: it has an id and a date. Only such rows fill the
      required `id` and `fecha` of the summary schemas. */
  predicate Persisted(e: Evaluacion)
  {
    e.id.Some? && e.fecha.Some?
  }

  /** `EvaluacionSummary.from_orm`. */
  function SummaryOf(e: Evaluacion): (s: EvaluacionSummary)
    requires Persisted(e)
    ensures Some(s.id) == e.id && Some(s.fecha) == e.fecha
    ensures s.edad == e.edad && s.sexo == e.sexo && s.riesgoEstimado == e.riesgoEstimado
    ensures s.aceptoConsentimiento == e.aceptoConsentimiento
  {
    EvaluacionSummary(e.id.value, e.edad, e.sexo, e.riesgoEstimado, e.fecha.value, e.aceptoConsentimiento)
  }

  /** `EvaluacionDetail.from_orm`. */
  function DetailOf(e: Evaluacion): EvaluacionDetail
    requires Persisted(e)
  {
    EvaluacionDetail(e.id.value, e.edad, e.sexo, e.riesgoEstimado, e.fecha.value, e.aceptoConsentimiento, e.respuestas)
  }

  /** The detail of a row carries its summary unchanged, plus its responses; the row
      can be rebuilt from its detail. */
  lemma DetailExtendsSummary(e: Evaluacion)
    requires Persisted(e)
    ensures DetailOf(e).Summary() == SummaryOf(e)
    ensures DetailOf(e).respuestas == e.respuestas
    ensures var d := DetailOf(e);
      e == Evaluacion(Some(d.id), d.sexo, d.edad, d.respuestas, d.riesgoEstimado, d.aceptoConsentimiento, Some(d.fecha))
  {
  }
}
