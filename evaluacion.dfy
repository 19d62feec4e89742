/**
 * The stored evaluation record and its dictionary form (app/models/evaluacion.py).
 */
module EvaluacionRecord {
  import opened Wrappers

  /** A point in time; larger is later. Its calendar and ISO text are not modelled. */
  type Timestamp = int

  /** One row of the `evaluaciones` table. `id` is `None` until the row is inserted;
      `fecha` is `None` on an instance that was built without it. */
  datatype Evaluacion = Evaluacion(
    id: Option<int>,
    sexo: string,
    edad: int,
    respuestas: seq<bool>,
    riesgoEstimado: real,
    aceptoConsentimiento: bool,
    fecha: Option<Timestamp>)

  /** A value of the dictionaries `to_dict` builds and `from_dict` reads. `IsoTime(t)`
      stands for the string `t.isoformat()`. */
  datatype Value =
    | Null
    | Int(i: int)
    | Float(x: real)
    | Bool(b: bool)
    | Str(s: string)
    | BoolList(bs: seq<bool>)
    | IsoTime(t: Timestamp)

  /** The keys `to_dict` writes. */
  const Keys: set<string> := {"id", "sexo", "edad", "respuestas", "riesgo_estimado", "acepto_consentimiento", "fecha"}

  function OptionalInt(v: Option<int>): Value
  {
    if v.Some? then Int(v.value) else Null
  }

  /** `to_dict`. */
  function ToDict(e: Evaluacion): (d: map<string, Value>)
    ensures d.Keys == Keys
    ensures d["id"] == (if e.id.Some? then Int(e.id.value) else Null)
    ensures d["sexo"] == Str(e.sexo) && d["edad"] == Int(e.edad) && d["respuestas"] == BoolList(e.respuestas)
    ensures d["riesgo_estimado"] == Float(e.riesgoEstimado) && d["acepto_consentimiento"] == Bool(e.aceptoConsentimiento)
    ensures d["fecha"] == (if e.fecha.Some? then IsoTime(e.fecha.value) else Null)
  {
    map[
      "id" := OptionalInt(e.id),
      "sexo" := Str(e.sexo),
      "edad" := Int(e.edad),
      "respuestas" := BoolList(e.respuestas),
      "riesgo_estimado" := Float(e.riesgoEstimado),
      "acepto_consentimiento" := Bool(e.aceptoConsentimiento),
      "fecha" := if e.fecha.Some? then IsoTime(e.fecha.value) else Null]
  }

  /** `data.get(key)`: the value under the key, `None` (here `Null`) when absent. */
  function Get(data: map<string, Value>, key: string): Value
  {
    if key in data then data[key] else Null
  }

  /** A number stored in the Float column: Python accepts an int there. */
  function AsFloat(v: Value): Option<real>
  {
    match v
    case Float(x) => Some(x)
    case Int(i) => Some(i as real)
    case _ => None
  }

  /** `from_dict`: a new instance (no `id`, no `fecha`) built from the four keys and the
      consent flag, which defaults to False when the key is missing. `None` stands for
      an instance that the table cannot hold: a key whose value is missing, `None`
      or of the wrong kind for its NOT NULL column. */
  function FromDict(data: map<string, Value>): (r: Option<Evaluacion>)
    ensures r.Some? ==> r.value.id.None? && r.value.fecha.None?
    ensures r.Some? ==>
      && Get(data, "sexo") == Str(r.value.sexo)
      && Get(data, "edad") == Int(r.value.edad)
      && Get(data, "respuestas") == BoolList(r.value.respuestas)
      && AsFloat(Get(data, "riesgo_estimado")) == Some(r.value.riesgoEstimado)
    ensures r.Some? && "acepto_consentimiento" !in data ==> !r.value.aceptoConsentimiento
    ensures r.Some? && "acepto_consentimiento" in data ==> data["acepto_consentimiento"] == Bool(r.value.aceptoConsentimiento)
    ensures r.None? <==>
      || !Get(data, "sexo").Str?
      || !Get(data, "edad").Int?
      || !Get(data, "respuestas").BoolList?
      || AsFloat(Get(data, "riesgo_estimado")).None?
      || ("acepto_consentimiento" in data && !data["acepto_consentimiento"].Bool?)
  {
    var sexo, edad, respuestas, riesgo := Get(data, "sexo"), Get(data, "edad"), Get(data, "respuestas"), AsFloat(Get(data, "riesgo_estimado"));
    var acepto := if "acepto_consentimiento" in data then data["acepto_consentimiento"] else Bool(false);
    if sexo.Str? && edad.Int? && respuestas.BoolList? && riesgo.Some? && acepto.Bool? then
      Some(Evaluacion(None, sexo.s, edad.i, respuestas.bs, riesgo.value, acepto.b, None))
    else
      None
  }

  /** `from_dict(to_dict(e))` gives back every data field of `e`; `id` and `fecha`
      are not carried over. */
  lemma FromDictOfToDict(e: Evaluacion)
    ensures FromDict(ToDict(e)) == Some(e.(id := None, fecha := None))
  {
    var d := ToDict(e);
    assert Get(d, "sexo") == Str(e.sexo);
    assert Get(d, "edad") == Int(e.edad);
    assert Get(d, "respuestas") == BoolList(e.respuestas);
    assert Get(d, "riesgo_estimado") == Float(e.riesgoEstimado);
  }

  /** The other direction: a dictionary `from_dict` accepts comes back from `to_dict`
      with the same data fields, `id` and `fecha` set to `None`. */
  lemma ToDictOfFromDict(data: map<string, Value>)
    requires FromDict(data).Some?
    ensures var d := ToDict(FromDict(data).value);
      && d["id"] == Null && d["fecha"] == Null
      && d["sexo"] == Get(data, "sexo") && d["edad"] == Get(data, "edad") && d["respuestas"] == Get(data, "respuestas")
      && d["acepto_consentimiento"] == (if "acepto_consentimiento" in data then data["acepto_consentimiento"] else Bool(false))
  {
  }
}
