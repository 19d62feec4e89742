/**
 * The evaluation store and the four handlers of app/routes/submit.py.
 *
 * The `evaluaciones` table is the sequence `rows` of an `EvaluationStore`, in
 * insertion order. `submit_evaluation` is a method that appends one row or leaves
 * the table as it was; the three read-only handlers are functions of the rows.
 * The clock (`datetime.utcnow()`) and the outcome of `db.commit()` are parameters.
 */
module SubmitRoutes {
  import opened Wrappers
  import opened EvaluacionRecord
  import opened SubmitSchemas
  import opened Predictor

  // ---------------------------------------------------------------------------
  // Identifiers
  // ---------------------------------------------------------------------------

  /** The largest id among the rows, 0 when there is none. */
  function MaxId(rows: seq<Evaluacion>): (m: int)
    ensures m >= 0
    ensures forall i :: 0 <= i < |rows| && rows[i].id.Some? ==> rows[i].id.value <= m
    ensures m == 0 || exists i :: 0 <= i < |rows| && rows[i].id == Some(m)
  {
    if rows == [] then 0
    else
      var rest := MaxId(rows[1..]);
      if rows[0].id.Some? && rows[0].id.value > rest then rows[0].id.value else rest
  }

  /** The id the autoincrement primary key gives the next inserted row: one past the
      largest id in the table, 1 for an empty table. */
  function NextId(rows: seq<Evaluacion>): (id: int)
    ensures id >= 1
    ensures forall i :: 0 <= i < |rows| ==> rows[i].id != Some(id)
  {
    MaxId(rows) + 1
  }

  /** Appending a row raises the largest id to that row's id when it is larger. */
  lemma {:induction false} MaxIdAppend(rows: seq<Evaluacion>, e: Evaluacion)
    ensures MaxId(rows + [e]) == if e.id.Some? && e.id.value > MaxId(rows) then e.id.value else MaxId(rows)
  {
    if rows == [] {
      assert rows + [e] == [e];
      assert [e][1..] == [];
    } else {
      assert (rows + [e])[1..] == rows[1..] + [e];
      MaxIdAppend(rows[1..], e);
    }
  }

  /** Ids are handed out one after another: after inserting the row that got
      `NextId(rows)`, the next id is one larger. */
  lemma NextIdAfterInsert(rows: seq<Evaluacion>, e: Evaluacion)
    requires e.id == Some(NextId(rows))
    ensures NextId(rows + [e]) == NextId(rows) + 1
  {
    MaxIdAppend(rows, e);
  }

  /** What the table holds: inserted rows (with id and date), ids positive and
      increasing in insertion order, and only data that passed `predict_risk`'s
      checks together with the probability it returned. */
  predicate StoredRows(rows: seq<Evaluacion>)
  {
    && (forall i :: 0 <= i < |rows| ==> Persisted(rows[i]) && rows[i].id.value >= 1)
    && (forall i, j :: 0 <= i < j < |rows| ==> rows[i].id.Some? && rows[j].id.Some? && rows[i].id.value < rows[j].id.value)
    && (forall i :: 0 <= i < |rows| ==> rows[i].sexo == "M" || rows[i].sexo == "F")
    && (forall i :: 0 <= i < |rows| ==> 0.0 <= rows[i].riesgoEstimado <= 1.0 && |rows[i].respuestas| == 40)
  }

  /** No two stored rows share an id. */
  lemma IdsUnique(rows: seq<Evaluacion>, i: int, j: int)
    requires StoredRows(rows)
    requires 0 <= i < |rows| && 0 <= j < |rows| && i != j
    ensures rows[i].id != rows[j].id
  {
    if i < j {
      assert rows[i].id.value < rows[j].id.value;
    } else {
      assert rows[j].id.value < rows[i].id.value;
    }
  }

  // ---------------------------------------------------------------------------
  // submit_evaluation
  // ---------------------------------------------------------------------------

  /** Why a submission ended with a server error after `db.rollback()`. */
  datatype Cause = ScoringFailed(error: Error) | CommitFailed

  /** The three ways `submit_evaluation` ends: 201 with the response body, 400 for a
      `ValueError`, 500 for any other exception. */
  datatype SubmitOutcome =
    | Created(evaluationId: int, prediction: PredictionResult, timestamp: Timestamp)
    | ValidationFailed(error: Error)
    | InternalError(cause: Cause)

  /** The row `submit_evaluation` builds for a request and its prediction, once the
      table has given it an id. */
  function NewRecord(request: EvaluacionRequest, prediction: Prediction, id: int, now: Timestamp): Evaluacion
  {
    Evaluacion(Some(id), request.sexo, request.edad, request.respuestas, prediction.probability,
               request.aceptoConsentimiento, Some(now))
  }

  class EvaluationStore {
    var rows: seq<Evaluacion>

    ghost predicate Valid()
      reads this
    {
      StoredRows(rows)
    }

    constructor ()
      ensures Valid() && rows == []
    {
      rows := [];
    }

    /** `submit_evaluation`: score the request, then add its row and commit. A
        `ValueError` gives a validation error; any other failure, in scoring or in
        the commit, rolls back. Consent is stored, never checked. */
    method SubmitEvaluation(request: EvaluacionRequest, loader: ModelLoader, artifact: Artifact, now: Timestamp, commitSucceeds: bool)
      returns (outcome: SubmitOutcome)
      requires Valid()
      modifies this, loader
      ensures Valid()
      ensures loader.model == CacheAfterPredict(old(loader.model), artifact, request.respuestas, request.edad, request.sexo)
      ensures match Predict(old(loader.model), artifact, request.respuestas, request.edad, request.sexo).result
        case Failure(e) =>
          && rows == old(rows)
          && outcome == (if IsValueError(e) then ValidationFailed(e) else InternalError(ScoringFailed(e)))
        case Success(p) =>
          if commitSucceeds then
            && rows == old(rows) + [NewRecord(request, p, NextId(old(rows)), now)]
            && outcome == Created(NextId(old(rows)), ToPredictionResult(p), now)
          else
            rows == old(rows) && outcome == InternalError(CommitFailed)
      ensures outcome.Created? ==> forall i :: 0 <= i < |old(rows)| ==> old(rows)[i].id != Some(outcome.evaluationId)
    {
      ghost var cache := loader.model;
      var predicted, _ := loader.PredictRisk(request.respuestas, request.edad, request.sexo, artifact);
      if predicted.Failure? {
        if IsValueError(predicted.error) {
          return ValidationFailed(predicted.error);
        }
        // db.rollback(): nothing was added
        return InternalError(ScoringFailed(predicted.error));
      }
      var prediction := predicted.value;
      if !commitSucceeds {
        // db.rollback(): the added row is discarded
        return InternalError(CommitFailed);
      }
      SuccessMeansValidInputs(cache, artifact, request.respuestas, request.edad, request.sexo);
      var id := NextId(rows);
      rows := rows + [NewRecord(request, prediction, id, now)];
      outcome := Created(id, ToPredictionResult(prediction), now);
    }
  }

  // ---------------------------------------------------------------------------
  // get_evaluaciones: ORDER BY fecha DESC, OFFSET, LIMIT
  // ---------------------------------------------------------------------------

  /** `a` may come before `b` in `ORDER BY fecha DESC`; a missing date sorts last,
      as SQLite places NULL below every value. */
  predicate NewerOrSame(a: Evaluacion, b: Evaluacion)
  {
    b.fecha.None? || (a.fecha.Some? && a.fecha.value >= b.fecha.value)
  }

  predicate SortedNewestFirst(s: seq<Evaluacion>)
  {
    forall i, j :: 0 <= i < j < |s| ==> NewerOrSame(s[i], s[j])
  }

  /** Insert one row into a newest-first sequence. */
  function InsertByFecha(x: Evaluacion, s: seq<Evaluacion>): (r: seq<Evaluacion>)
    requires SortedNewestFirst(s)
    ensures SortedNewestFirst(r)
    ensures multiset(r) == multiset(s) + multiset{x}
    ensures |r| == |s| + 1
  {
    if s == [] || NewerOrSame(x, s[0]) then [x] + s
    else
      var t := InsertByFecha(x, s[1..]);
      assert s == [s[0]] + s[1..];
      HeadStaysFirst(s[0], x, s[1..], t);
      [s[0]] + t
  }

  /** A row that is newer than every row of `rest` and than `x` can head any
      newest-first arrangement of them. */
  lemma HeadStaysFirst(h: Evaluacion, x: Evaluacion, rest: seq<Evaluacion>, t: seq<Evaluacion>)
    requires forall j :: 0 <= j < |rest| ==> NewerOrSame(h, rest[j])
    requires NewerOrSame(h, x)
    requires SortedNewestFirst(t)
    requires multiset(t) == multiset(rest) + multiset{x}
    ensures SortedNewestFirst([h] + t)
  {
    forall k | 0 <= k < |t|
      ensures NewerOrSame(h, t[k])
    {
      assert t[k] in multiset(t);
      if t[k] != x {
        assert t[k] in multiset(rest);
        assert t[k] in rest;
      }
    }
    var r := [h] + t;
    forall i, j | 0 <= i < j < |r|
      ensures NewerOrSame(r[i], r[j])
    {
      if i > 0 {
        assert r[i] == t[i - 1] && r[j] == t[j - 1];
      } else {
        assert r[j] == t[j - 1];
      }
    }
  }

  /** The rows in `ORDER BY fecha DESC` order (rows with equal dates in some order). */
  function OrderByFechaDesc(s: seq<Evaluacion>): (r: seq<Evaluacion>)
    ensures SortedNewestFirst(r)
    ensures multiset(r) == multiset(s)
    ensures |r| == |s|
  {
    if s == [] then []
    else
      assert s == [s[0]] + s[1..];
      InsertByFecha(s[0], OrderByFechaDesc(s[1..]))
  }

  /** A permutation of inserted rows holds only inserted rows. */
  lemma PermutationKeepsPersisted(s: seq<Evaluacion>, r: seq<Evaluacion>)
    requires multiset(r) == multiset(s)
    requires forall i :: 0 <= i < |s| ==> Persisted(s[i])
    ensures forall k :: 0 <= k < |r| ==> Persisted(r[k])
  {
    forall k | 0 <= k < |r|
      ensures Persisted(r[k])
    {
      assert r[k] in multiset(r);
      assert r[k] in s;
    }
  }

  function Min(a: int, b: int): int
  {
    if a < b then a else b
  }

  /** The query parameters' defaults of `get_evaluaciones`. */
  const DefaultLimit: nat := 100
  const DefaultOffset: nat := 0

  /** `get_evaluaciones(limit, offset)`: the summaries of the rows at positions
      `offset` to `offset + limit` (exclusive) of the newest-first order. */
  function GetEvaluaciones(rows: seq<Evaluacion>, limit: nat, offset: nat): (page: seq<EvaluacionSummary>)
    requires forall i :: 0 <= i < |rows| ==> Persisted(rows[i])
    ensures |page| <= limit
    ensures offset >= |rows| ==> page == []
    ensures offset < |rows| ==> |page| == Min(limit, |rows| - offset)
    ensures forall k :: 0 <= k < |page| ==>
      var sorted := OrderByFechaDesc(rows);
      offset + k < |sorted| && Persisted(sorted[offset + k]) && page[k] == SummaryOf(sorted[offset + k])
    ensures forall k :: 0 < k < |page| ==> page[k - 1].fecha >= page[k].fecha
  {
    var sorted := OrderByFechaDesc(rows);
    PermutationKeepsPersisted(rows, sorted);
    if offset >= |sorted| then []
    else
      var end := Min(offset + limit, |sorted|);
      seq(end - offset, k requires 0 <= k < end - offset => SummaryOf(sorted[offset + k]))
  }

  /** `get_evaluaciones()` with neither parameter: the newest rows, at most 100 of them. */
  lemma DefaultPageIsNewest(rows: seq<Evaluacion>)
    requires forall i :: 0 <= i < |rows| ==> Persisted(rows[i])
    ensures var page := GetEvaluaciones(rows, DefaultLimit, DefaultOffset);
      |page| == Min(100, |rows|)
      && forall k :: 0 <= k < |page| ==> Persisted(OrderByFechaDesc(rows)[k]) && page[k] == SummaryOf(OrderByFechaDesc(rows)[k])
  {
    var page := GetEvaluaciones(rows, DefaultLimit, DefaultOffset);
    var sorted := OrderByFechaDesc(rows);
    PermutationKeepsPersisted(rows, sorted);
    if rows == [] {
      assert page == [];
    } else {
      assert |page| == Min(DefaultLimit, |rows| - DefaultOffset);
      forall k | 0 <= k < |page|
        ensures Persisted(sorted[k]) && page[k] == SummaryOf(sorted[k])
      {
        assert page[k] == SummaryOf(sorted[DefaultOffset + k]);
      }
    }
  }

  // ---------------------------------------------------------------------------
  // get_evaluacion_detail
  // ---------------------------------------------------------------------------

  /** The position of the first row with the id, if any. */
  function FindById(rows: seq<Evaluacion>, id: int): (r: Option<nat>)
    ensures r.Some? ==> r.value < |rows| && rows[r.value].id == Some(id)
    ensures r.None? ==> forall i :: 0 <= i < |rows| ==> rows[i].id != Some(id)
  {
    if rows == [] then None
    else if rows[0].id == Some(id) then Some(0)
    else
      match FindById(rows[1..], id)
      case None => None
      case Some(k) => Some(k + 1)
  }

  /** The 404 of `get_evaluacion_detail`. */
  datatype NotFound = NotFound(id: int)

  /** `get_evaluacion_detail(evaluation_id)`. */
  function GetEvaluacionDetail(rows: seq<Evaluacion>, id: int): (r: Result<EvaluacionDetail, NotFound>)
    requires forall i :: 0 <= i < |rows| ==> Persisted(rows[i])
    ensures r.Failure? <==> forall i :: 0 <= i < |rows| ==> rows[i].id != Some(id)
    ensures r.Failure? ==> r.error == NotFound(id)
    ensures r.Success? ==> r.value.id == id && exists i :: 0 <= i < |rows| && r.value == DetailOf(rows[i])
  {
    match FindById(rows, id)
    case None => Failure(NotFound(id))
    case Some(k) => Success(DetailOf(rows[k]))
  }

  /** In the store, the detail for an id is the detail of the one row with that id. */
  lemma DetailIsTheRowWithId(rows: seq<Evaluacion>, i: int)
    requires StoredRows(rows)
    requires 0 <= i < |rows|
    ensures GetEvaluacionDetail(rows, rows[i].id.value) == Success(DetailOf(rows[i]))
  {
    var k := FindById(rows, rows[i].id.value).value;
    if k != i {
      IdsUnique(rows, i, k);
    }
  }

  // ---------------------------------------------------------------------------
  // get_evaluation_stats
  // ---------------------------------------------------------------------------

  /** Rows with `riesgo_estimado >= 0.7`. */
  function CountHigh(rows: seq<Evaluacion>): nat
  {
    if rows == [] then 0 else (if rows[0].riesgoEstimado >= 0.7 then 1 else 0) + CountHigh(rows[1..])
  }

  /** Rows with `0.3 <= riesgo_estimado < 0.7`. */
  function CountMedium(rows: seq<Evaluacion>): nat
  {
    if rows == [] then 0
    else (if 0.3 <= rows[0].riesgoEstimado < 0.7 then 1 else 0) + CountMedium(rows[1..])
  }

  /** Rows with `riesgo_estimado < 0.3`. */
  function CountLow(rows: seq<Evaluacion>): nat
  {
    if rows == [] then 0 else (if rows[0].riesgoEstimado < 0.3 then 1 else 0) + CountLow(rows[1..])
  }

  /** Rows whose `sexo` equals the given value. */
  function CountSexo(rows: seq<Evaluacion>, sexo: string): nat
  {
    if rows == [] then 0 else (if rows[0].sexo == sexo then 1 else 0) + CountSexo(rows[1..], sexo)
  }

  /** Rows whose probability `get_risk_level` puts in the given level. */
  function CountLevel(rows: seq<Evaluacion>, level: RiskLevel): nat
  {
    if rows == [] then 0
    else (if GetRiskLevel(rows[0].riesgoEstimado) == level then 1 else 0) + CountLevel(rows[1..], level)
  }

  /** Every row is in exactly one of the three risk buckets. */
  lemma {:induction false} RiskBucketsPartition(rows: seq<Evaluacion>)
    ensures CountHigh(rows) + CountMedium(rows) + CountLow(rows) == |rows|
  {
    if rows != [] {
      RiskBucketsPartition(rows[1..]);
    }
  }

  /** The buckets of the statistics are the levels of `get_risk_level`. */
  lemma {:induction false} RiskBucketsAreLevels(rows: seq<Evaluacion>)
    ensures CountHigh(rows) == CountLevel(rows, High)
    ensures CountMedium(rows) == CountLevel(rows, Medium)
    ensures CountLow(rows) == CountLevel(rows, Low)
  {
    if rows != [] {
      RiskBucketsAreLevels(rows[1..]);
      RiskLevelBands(rows[0].riesgoEstimado);
    }
  }

  /** Male and female counts never exceed the total, and reach it when every row is
      'M' or 'F'. */
  lemma {:induction false} SexoCountsBounded(rows: seq<Evaluacion>)
    ensures CountSexo(rows, "M") + CountSexo(rows, "F") <= |rows|
    ensures (forall i :: 0 <= i < |rows| ==> rows[i].sexo == "M" || rows[i].sexo == "F") ==>
              CountSexo(rows, "M") + CountSexo(rows, "F") == |rows|
  {
    if rows != [] {
      SexoCountsBounded(rows[1..]);
      assert forall i :: 1 <= i < |rows| ==> rows[1..][i - 1] == rows[i];
    }
  }

  /** The dictionary `get_evaluation_stats` returns. */
  datatype Statistics = Statistics(totalEvaluations: nat, highRisk: nat, mediumRisk: nat, lowRisk: nat, male: nat, female: nat)

  /** `get_evaluation_stats`. */
  function GetEvaluationStats(rows: seq<Evaluacion>): (s: Statistics)
    ensures s.totalEvaluations == |rows|
    ensures s.highRisk + s.mediumRisk + s.lowRisk == s.totalEvaluations
    ensures s.highRisk == CountLevel(rows, High) && s.mediumRisk == CountLevel(rows, Medium) && s.lowRisk == CountLevel(rows, Low)
    ensures s.male + s.female <= s.totalEvaluations
    ensures (forall i :: 0 <= i < |rows| ==> rows[i].sexo == "M" || rows[i].sexo == "F") ==>
              s.male + s.female == s.totalEvaluations
  {
    RiskBucketsPartition(rows);
    RiskBucketsAreLevels(rows);
    SexoCountsBounded(rows);
    Statistics(|rows|, CountHigh(rows), CountMedium(rows), CountLow(rows), CountSexo(rows, "M"), CountSexo(rows, "F"))
  }

  /** Every stored row is 'M' or 'F', so the sex counts of the store add up to the total. */
  lemma StoreSexoCountsComplete(rows: seq<Evaluacion>)
    requires StoredRows(rows)
    ensures GetEvaluationStats(rows).male + GetEvaluationStats(rows).female == |rows|
  {
  }

  /** Inserting a row older than the head of a newest-first sequence passes the head. */
  lemma InsertBehindHead(x: Evaluacion, h: Evaluacion, s: seq<Evaluacion>)
    requires SortedNewestFirst([h] + s) && SortedNewestFirst(s)
    requires !NewerOrSame(x, h)
    ensures InsertByFecha(x, [h] + s) == [h] + InsertByFecha(x, s)
  {
    assert ([h] + s)[1..] == s;
  }

  /** Ordering a sequence with a first row inserts that row into the ordered rest. */
  lemma OrderOfCons(x: Evaluacion, s: seq<Evaluacion>)
    ensures OrderByFechaDesc([x] + s) == InsertByFecha(x, OrderByFechaDesc(s))
  {
    assert ([x] + s)[0] == x && ([x] + s)[1..] == s;
  }

  /** A row older than both rows of a newest-first pair goes last. */
  lemma InsertLastOfTwo(x: Evaluacion, h1: Evaluacion, h2: Evaluacion)
    requires NewerOrSame(h1, h2) && !NewerOrSame(x, h1) && !NewerOrSame(x, h2)
    ensures InsertByFecha(x, [h1, h2]) == [h1, h2, x]
  {
    assert [h1, h2] == [h1] + [h2] && [h2] == [h2] + [];
    InsertBehindHead(x, h2, []);
    InsertBehindHead(x, h1, [h2]);
  }

  /** Two rows with increasing dates are ordered last-inserted first. */
  lemma OrderOfTwo(r1: Evaluacion, r2: Evaluacion)
    requires r1.fecha.Some? && r2.fecha.Some? && r1.fecha.value < r2.fecha.value
    ensures OrderByFechaDesc([r1, r2]) == [r2, r1]
  {
    OrderOfCons(r2, []);
    assert [r2] + [] == [r2];
    OrderOfCons(r1, [r2]);
    assert [r1] + [r2] == [r1, r2];
    InsertBehindHead(r1, r2, []);
  }

  /** Three rows inserted at increasing times are listed in reverse insertion order. */
  lemma OrderOfThree(r0: Evaluacion, r1: Evaluacion, r2: Evaluacion)
    requires r0.fecha.Some? && r1.fecha.Some? && r2.fecha.Some?
    requires r0.fecha.value < r1.fecha.value < r2.fecha.value
    ensures OrderByFechaDesc([r0, r1, r2]) == [r2, r1, r0]
  {
    OrderOfTwo(r1, r2);
    OrderOfCons(r0, [r1, r2]);
    assert [r0] + [r1, r2] == [r0, r1, r2];
    InsertLastOfTwo(r0, r2, r1);
  }

  /** One accepted submission, with the model already cached or still on disk. */
  method SubmitAccepted(store: EvaluationStore, loader: ModelLoader, request: EvaluacionRequest, model: Classifier, now: Timestamp)
    returns (outcome: SubmitOutcome)
    requires store.Valid()
    requires CheckInputs(request.respuestas, request.edad, request.sexo).None?
    requires model(PrepareFeatures40(request.respuestas)).Proba?
    requires loader.model == None || loader.model == Some(model)
    modifies store, loader
    ensures store.Valid() && loader.model == Some(model)
    ensures outcome.Created? && outcome.evaluationId == NextId(old(store.rows))
    ensures store.rows == old(store.rows) + [NewRecord(request, Score(model, request.respuestas, request.edad, request.sexo).result.value, outcome.evaluationId, now)]
  {
    assert Predict(loader.model, Stored(model), request.respuestas, request.edad, request.sexo)
        == Score(model, request.respuestas, request.edad, request.sexo);
    outcome := store.SubmitEvaluation(request, loader, Stored(model), now, true);
  }

  /** Three accepted submissions of the same request, at times t1, t2 and t3, into an
      empty table: they get ids 1, 2 and 3, which is what the table then holds. */
  method ThreeSubmissions(request: EvaluacionRequest, model: Classifier, t1: Timestamp, t2: Timestamp, t3: Timestamp)
    returns (ids: seq<int>, rows: seq<Evaluacion>)
    requires CheckInputs(request.respuestas, request.edad, request.sexo).None?
    requires model(PrepareFeatures40(request.respuestas)).Proba?
    ensures ids == [1, 2, 3]
    ensures StoredRows(rows) && |rows| == 3
    ensures rows[0].id == Some(1) && rows[1].id == Some(2) && rows[2].id == Some(3)
    ensures rows[0].fecha == Some(t1) && rows[1].fecha == Some(t2) && rows[2].fecha == Some(t3)
  {
    var store := new EvaluationStore();
    var loader := new ModelLoader();
    var a := SubmitAccepted(store, loader, request, model, t1);
    assert a.evaluationId == NextId([]) == 1;
    ghost var rows1 := store.rows;
    NextIdAfterInsert([], rows1[0]);
    var b := SubmitAccepted(store, loader, request, model, t2);
    assert b.evaluationId == NextId(rows1) == 2;
    ghost var rows2 := store.rows;
    NextIdAfterInsert(rows1, rows2[1]);
    var c := SubmitAccepted(store, loader, request, model, t3);
    assert c.evaluationId == NextId(rows2) == 3;
    ids := [a.evaluationId, b.evaluationId, c.evaluationId];
    rows := store.rows;
  }

  /** A table of three rows inserted at increasing times: `get_evaluaciones(3, 0)`
      lists them newest first, and the statistics count all three. */
  lemma ThreeRowsListedNewestFirst(rows: seq<Evaluacion>)
    requires StoredRows(rows) && |rows| == 3
    requires rows[0].fecha.value < rows[1].fecha.value < rows[2].fecha.value
    ensures var page := GetEvaluaciones(rows, 3, 0);
      |page| == 3 && page[0].id == rows[2].id.value && page[1].id == rows[1].id.value && page[2].id == rows[0].id.value
    ensures GetEvaluationStats(rows).totalEvaluations == 3
    ensures GetEvaluationStats(rows).male + GetEvaluationStats(rows).female == 3
  {
    assert rows == [rows[0], rows[1], rows[2]];
    OrderOfThree(rows[0], rows[1], rows[2]);
    var sorted := OrderByFechaDesc(rows);
    var page := GetEvaluaciones(rows, 3, 0);
    assert page[0] == SummaryOf(sorted[0]) && page[1] == SummaryOf(sorted[1]) && page[2] == SummaryOf(sorted[2]);
    StoreSexoCountsComplete(rows);
  }
}
