# Risk evaluation pipeline of the Neurodevelopmental Disorders Risk Calculator, in Dafny

This project models the risk-evaluation pipeline of the calculator. A submission is made of 40 yes/no answers to the
SCQ questionnaire plus age and sex. The pipeline checks it, turns it into a feature vector, scores it with a
pre-trained classifier, maps the probability to a risk level and an interpretation, and stores an evaluation
record. It also answers listing, lookup and statistics queries over the stored records.

Modules, one per source file:

- `Predictor` (`predictor.dfy`, app/models/predictor.py). It holds the argument checks, the two feature layouts,
  the two threshold maps, the memoised loader and `predict_risk` with its one-step fallback. The classifier is
  opaque: a deterministic function `Classifier` from a feature vector to either a raised exception or a pair of
  class probabilities in [0, 1]. The model file is a parameter `Artifact`: missing, unreadable or holding a
  classifier. The module-level `_model` is the field of class `ModelLoader`. Its methods `LoadModel` and
  `PredictRisk` are proved equal to the pure functions `Load` and `Predict`. `PredictRisk` also returns the
  vectors it passed to `predict_proba`, in call order, so the fallback can be stated.
- `EvaluacionRecord` (`evaluacion.dfy`, app/models/evaluacion.py). It holds the `Evaluacion` row, `to_dict` and
  `from_dict`, and their round trip.
- `SubmitSchemas` (`schemas_submit.dfy`, app/schemas/submit.py). It holds the `EvaluacionRequest` validators, the
  `PredictionResult` bounds and the summary and detail views of a row.
- `RequestSchemas` (`schemas_request.dfy`, app/schemas/request.py). It holds the `InputData` validators, including
  case-insensitive sex with upper-case normalisation.
- `SubmitRoutes` (`routes_submit.dfy`, app/routes/submit.py). Class `EvaluationStore` holds the `evaluaciones`
  table as a sequence of rows. `SubmitEvaluation` appends one row or leaves the table unchanged. The listing,
  lookup and statistics handlers are functions of the rows.
- `Strings` (`strings.dfy`) is Python's `str.upper()` on ASCII. `Wrappers` (`wrappers.dfy`) holds `Option` and
  `Result`.

The clock (`datetime.utcnow()`) is the parameter `now`. Whether `db.commit()` succeeds is the parameter
`commitSucceeds`. Whether the model file exists and loads is the `Artifact` parameter.

Behaviour of the code a reader may not expect, which the model keeps:

- `submit_evaluation` never rejects `acepto_consentimiento = false`. The flag is stored as given
  (app/routes/submit.py:66).
- `predict_risk` accepts age 0 (app/models/predictor.py:72), while both request schemas require at least 1
  (app/schemas/submit.py:14, app/schemas/request.py:7).
- The 40-to-42-feature fallback is triggered by any exception of the first `predict_proba` call
  (app/models/predictor.py:87), not only by a wrong number of features.
- The classifier is called once more, on the vector that worked, to compute the confidence
  (app/models/predictor.py:97).
- An exception of the classifier that is a `ValueError` reaches the submit handler as a validation error (400).
  This is what scikit-learn raises on a feature-count mismatch. Other exceptions give a server error (500) after
  a rollback.
- The model loader takes no lock.

## Model

| member | source | states |
|---|---|---|
| `Predictor.RiskLevelBands` | app/models/predictor.py:158-163 | `get_risk_level` gives Low iff p < 0.3, Medium iff 0.3 <= p < 0.7, High iff p >= 0.7; each boundary is in the upper band |
| `Predictor.InterpretationBands` | app/models/predictor.py:175-184 | `get_interpretation` splits at 0.2, 0.4, 0.6 and 0.8 into five half-open bands; p >= 0.8 is "muy alto" |
| `Predictor.RiskLevelMonotone` | app/models/predictor.py:158-163 | p <= q implies the level of p is no higher than the level of q |
| `Predictor.InterpretationMonotone` | app/models/predictor.py:175-184 | p <= q implies the interpretation band of p is no higher than that of q |
| `Predictor.InterpretationTextsDistinct` | app/models/predictor.py:175-184 | the five interpretation strings are pairwise different |
| `Predictor.PrepareFeatures40` | app/models/predictor.py:113-124 | same length as the responses, in order; entry i is 1.0 iff response i is true and 0.0 iff it is false |
| `Predictor.PrepareFeatures42` | app/models/predictor.py:126-146 | length is responses + 2; the prefix is the 40-feature vector; then the age, then 1.0 iff sex is exactly "M", else 0.0 |
| `Predictor.Max` | app/models/predictor.py:97 | the confidence is the larger of the two class probabilities |
| `Predictor.CheckInputs` | app/models/predictor.py:69-76 | passes iff there are 40 responses, 0 <= age <= 120 and sex is "M" or "F"; otherwise the first failing check is reported, as a ValueError |
| `Predictor.LoadIsMemoised` | app/models/predictor.py:31-46 | after a successful load the cached model is returned by every later load, whatever the artifact; a failed load caches nothing; a missing file raises FileNotFoundError |
| `Predictor.ValidationPrecedesLoading` | app/models/predictor.py:67-79 | invalid arguments fail with a ValueError before loading: the classifier is not called and `_model` is unchanged |
| `Predictor.FallbackIsBounded` | app/models/predictor.py:83-91 | the 40-feature vector is scored first; the 42-feature vector is tried iff that raised; only these two vectors are ever used, in two or three calls; a second raise propagates with no further attempt |
| `Predictor.PredictionIsConsistent` | app/models/predictor.py:93-104 | in a success, probability and confidence come from the same vector; confidence is the larger class probability and at least the probability; level and interpretation are those of the probability |
| `Predictor.SuccessMeansValidInputs` | app/models/predictor.py:67-107 | a successful prediction implies valid arguments, and its probability and confidence lie in [0, 1] |
| `Predictor.PredictAcceptsAgeZero` | app/models/predictor.py:72-73 | age 0 passes the checks of `predict_risk`; age 121 is rejected |
| `Predictor.ModelLoader.constructor` | app/models/predictor.py:16-17 | `_model` starts unset |
| `Predictor.ModelLoader.LoadModel` | app/models/predictor.py:20-46 | returns the cached model when there is one, or else the artifact's model, which it caches, or raises with nothing cached |
| `Predictor.ModelLoader.PredictRisk` | app/models/predictor.py:48-111 | result and list of scored vectors equal `Predict`; `_model` changes only through the loader, and only once the arguments are valid |
| `EvaluacionRecord.ToDict` | app/models/evaluacion.py:44-56 | exactly the seven keys; id, sexo, edad, respuestas, riesgo_estimado and acepto_consentimiento copied; fecha as its ISO form, or None when absent |
| `EvaluacionRecord.FromDict` | app/models/evaluacion.py:58-69 | sexo, edad, respuestas and riesgo_estimado are read from the dict; consent defaults to False when the key is missing; no id, no fecha; rejects exactly the dicts with a missing or ill-typed required value |
| `EvaluacionRecord.FromDictOfToDict` | app/models/evaluacion.py:44-69 | from_dict(to_dict(e)) is e with id and fecha dropped |
| `EvaluacionRecord.ToDictOfFromDict` | app/models/evaluacion.py:44-69 | to_dict(from_dict(d)) gives back d's sexo, edad and respuestas and its consent value (False when absent), with id and fecha None |
| `Strings.Upper` | app/schemas/request.py:18-20 | upper-casing keeps the length and maps each character |
| `Strings.UpperIdempotent` | app/schemas/request.py:18-20 | upper-casing twice equals upper-casing once |
| `SubmitSchemas.ValidateSexo` | app/schemas/submit.py:26-31 | sexo is accepted iff it is exactly "M" or "F", and the accepted value is returned unchanged |
| `SubmitSchemas.ValidateRespuestas` | app/schemas/submit.py:16-24 | respuestas is accepted iff it has exactly 40 entries, and it is returned unchanged |
| `SubmitSchemas.ValidateEvaluacionRequest` | app/schemas/submit.py:10-31 | the request is accepted iff 1 <= edad <= 120, sexo is "M" or "F" and there are 40 answers; every failing field is reported and no other; consent is not checked |
| `SubmitSchemas.LowercaseSexoRejected` | app/schemas/submit.py:15-31 | "m" and "f" are rejected; "M" and "F" are kept |
| `SubmitSchemas.ToPredictionResult` | app/schemas/submit.py:43-50 | the response keeps probability and confidence, both within [0, 1]; the level and interpretation strings are those of the prediction, and the level string is that of the probability iff the prediction's level is |
| `SubmitSchemas.SummaryOf` | app/schemas/submit.py:95-107 | the summary carries the row's id, edad, sexo, riesgo_estimado, fecha and consent |
| `SubmitSchemas.DetailExtendsSummary` | app/schemas/submit.py:109-116 | the detail has every summary field plus respuestas; the row can be rebuilt from it |
| `RequestSchemas.ValidateResponses` | app/schemas/request.py:10-14 | responses accepted iff there are exactly 40 |
| `RequestSchemas.ValidateSex` | app/schemas/request.py:16-20 | sex is accepted iff its upper-case form is "M" or "F", and that form is the stored value |
| `RequestSchemas.ValidateSexAccepts` | app/schemas/request.py:16-20 | exactly "M", "m", "F" and "f" are accepted; "m" becomes "M" and "f" becomes "F" |
| `RequestSchemas.ValidateSexIdempotent` | app/schemas/request.py:16-20 | an accepted value validates again to itself |
| `RequestSchemas.ValidateInputData` | app/schemas/request.py:4-20 | accepted iff 40 responses, 1 <= age <= 120 and sex in {M, m, F, f}; the stored sex is "M" or "F"; every failing field is reported and no other |
| `SubmitRoutes.MaxId` | app/models/evaluacion.py:24 | not below any id in the table, and 0 or an id that occurs |
| `SubmitRoutes.NextId` | app/models/evaluacion.py:24 | the autoincrement id is at least 1 and differs from every stored id |
| `SubmitRoutes.MaxIdAppend` | app/models/evaluacion.py:24 | appending a row raises the largest id to that row's id when it is larger |
| `SubmitRoutes.NextIdAfterInsert` | app/models/evaluacion.py:24 | after inserting the row that got the next id, the next id is one larger |
| `SubmitRoutes.IdsUnique` | app/models/evaluacion.py:24 | no two stored rows share an id |
| `SubmitRoutes.EvaluationStore.constructor` | app/models/evaluacion.py:21-39 | the table starts empty and well formed |
| `SubmitRoutes.EvaluationStore.SubmitEvaluation` | app/routes/submit.py:39-100 | on a ValueError: 400, table unchanged; on another scoring error or a failed commit: 500, table unchanged; on success exactly one row is appended, with the request's sexo, edad, respuestas and consent, the prediction's probability, the next id and `now`, and that id is returned; the table stays well formed |
| `SubmitRoutes.InsertByFecha` | app/routes/submit.py:125-126 | inserting into a newest-first sequence keeps it newest-first and adds exactly the one row |
| `SubmitRoutes.OrderByFechaDesc` | app/routes/submit.py:125-126 | the result is ordered by fecha descending and is a permutation of the rows |
| `SubmitRoutes.HeadStaysFirst` | app/routes/submit.py:125-126 | a row newer than all the others can head their newest-first arrangement |
| `SubmitRoutes.PermutationKeepsPersisted` | app/routes/submit.py:125-131 | reordering stored rows yields only stored rows |
| `SubmitRoutes.GetEvaluaciones` | app/routes/submit.py:108-131 | at most `limit` summaries; none when offset >= count, otherwise min(limit, count - offset); entry k is the summary of position offset + k of the newest-first order; dates are non-increasing |
| `SubmitRoutes.DefaultPageIsNewest` | app/routes/submit.py:108-131 | with the defaults `limit = 100` and `offset = 0`, the page holds the min(100, count) newest rows' summaries, newest first |
| `SubmitRoutes.FindById` | app/routes/submit.py:160-162 | finds a row with the id, or reports that no row has it |
| `SubmitRoutes.GetEvaluacionDetail` | app/routes/submit.py:145-170 | not-found iff no row has the id; otherwise the detail of a row with that id |
| `SubmitRoutes.DetailIsTheRowWithId` | app/routes/submit.py:160-170 | in the store, the detail for a stored id is the detail of that one row |
| `SubmitRoutes.RiskBucketsPartition` | app/routes/submit.py:193-207 | high (r >= 0.7), medium (0.3 <= r < 0.7) and low (r < 0.3) add up to the total |
| `SubmitRoutes.RiskBucketsAreLevels` | app/routes/submit.py:196-207 | each bucket counts exactly the rows that `get_risk_level` puts in that level |
| `SubmitRoutes.SexoCountsBounded` | app/routes/submit.py:210-216 | male + female <= total, with equality when every sexo is "M" or "F" |
| `SubmitRoutes.GetEvaluationStats` | app/routes/submit.py:185-229 | the total is the row count; the risk buckets sum to it and match the risk levels; male + female <= total, with equality when every sexo is "M" or "F" |
| `SubmitRoutes.StoreSexoCountsComplete` | app/routes/submit.py:210-216 | in the store male + female equals the total, since only "M" and "F" rows are ever stored |
| `SubmitRoutes.OrderOfTwo` | app/routes/submit.py:125-126 | two rows with increasing dates are ordered last-inserted first |
| `SubmitRoutes.OrderOfThree` | app/routes/submit.py:125-126 | three rows with increasing dates are ordered last-inserted first |
| `SubmitRoutes.SubmitAccepted` | app/routes/submit.py:54-81 | a request that passes the checks, with a model that scores it, is stored under the next id |
| `SubmitRoutes.ThreeSubmissions` | app/routes/submit.py:54-81 | three accepted submissions into an empty table get ids 1, 2 and 3 and leave a well-formed table of those rows |
| `SubmitRoutes.ThreeRowsListedNewestFirst` | app/routes/submit.py:108-216 | those rows at increasing times are listed newest first by `get_evaluaciones(3, 0)`, and the statistics count all three, by sex too |

## Left out

- The classifier's internals: joblib/pickle loading, `predict_proba` and `n_features_in_`. The model is an opaque deterministic function. Its exceptions are only told apart as `ValueError` or other.
- A classifier whose repeated calls on the same vector differ. `predict_risk` scores the successful vector again for the confidence. The model treats that call as giving the same output.
- The file-system check and `joblib.load` in `load_model`. They are the `Artifact` parameter.
- Concurrency around the global `_model`. The code has no lock, so the loader is modelled single-threaded.
- IEEE floating point. Probabilities are Dafny `real`, and thresholds such as 0.3 are exact. `float(...)` conversions and NaN are not modelled.
- Python's dynamic types. The `isinstance(age, int)` check is the `int` type. The schema library's coercion of strings or floats into fields is not modelled, and neither are non-bool JSON in `respuestas` nor non-string sex values.
- `Strings.Upper`: upper-cases ASCII letters only. Python's `str.upper()` also maps other Unicode letters, some to several characters, which the sex validator of the predict schema would see.
- The calendar value of timestamps. A timestamp is an integer, larger meaning later. `IsoTime(t)` stands for the text of `t.isoformat()`.
- `EvaluacionRecord.FromDict`: returns `None` for a dict missing a required value. Python instead builds an instance with `None` attributes, and the NOT NULL columns reject it only when it is inserted.
- The column defaults `acepto_consentimiento = False` and `fecha = datetime.utcnow`. The only insert modelled, `submit_evaluation`, sets both explicitly. The `from_dict` default for consent is modelled.
- Negative `limit` or `offset` for `get_evaluaciones`. Both are `nat` here.
- `SubmitRoutes.NextId`: ids follow SQLite's rowid rule, largest stored id + 1. SQLite is the default engine, and `autoincrement=True` does not make it use AUTOINCREMENT. When `DATABASE_URL` selects PostgreSQL, the id comes from a sequence. A commit that fails and is rolled back still uses up a value there, so later ids can have gaps. The `SubmitEvaluation` promise that a new row gets `NextId` of the old table then does not hold. Ids would still be fresh.
- The order among rows with equal `fecha`. The database leaves it unspecified. `OrderByFechaDesc` fixes one order, but the contracts only promise an ordering by date that is a permutation of the rows.
- `NULL` dates in ordering. `NewerOrSame` sorts them last, as SQLite does. Stored rows never have one.
- Database failures in the three read handlers (their 500 responses). Also a failure of `db.refresh` after a successful commit. `commitSucceeds` stands for the outcome of add, commit and refresh together.
- A failure in building `PredictionResult` after the commit. Probability and confidence are typed in [0, 1], so it cannot fail. `SubmitSchemas.ToPredictionResult` states the bounds.
- The constant `success` and `message` fields of `EvaluacionResponse`, logging, and the HTTP status codes beyond telling validation error, not-found and server error apart.
- `get_model_info` in predictor.py. It reports metadata of the loaded model, which is opaque here.
- app/routes/predict.py, app/main.py and app/database.py are not part of this model: they are HTTP and database plumbing. predict.py also calls `predict_risk(model, data)` with a signature that does not match predictor.py.
- Training and the scripts (create_ml_model.py, save_model.py, the test, migration and server scripts) are not part of this model: they are I/O.
