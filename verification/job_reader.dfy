/** `load_scorer_event`: the flat scorer event built from a job
    directory's `impact_results.json` and its manifest.
 */
module JobReader {
  import opened Wrappers
  import opened Json
  import opened Files
  import opened Oracles
  import opened Manifest

  const ResultsFilename := "impact_results.json"

  /** The keys every scorer event has. */
  const EventKeys: set<string> :=
    {"initiative_id", "model_type", "ci_upper", "effect_estimate", "ci_lower", "cost_to_scale", "sample_size"}

  /** `manifest.initiative_id or job_dir.name`. */
  function EventId(m: Manifest, dir: Path): string
  {
    if m.initiativeId != "" then m.initiativeId else Name(dir)
  }

  /** The event read from decoded results, before overrides; the numeric
      fields are converted in the order the source lists them. */
  function EventOf(m: Manifest, dir: Path, data: Json): (r: Result<map<string, Json>>)
    ensures !data.JObj? ==> r.Err? && r.error.AttributeError?
    ensures r.Ok? ==>
      var d := data.fields;
      var e := r.value;
      && e.Keys == EventKeys
      && e["initiative_id"] == JStr(EventId(m, dir))
      && e["model_type"] == JStr(m.modelType)
      && Ok(e["ci_upper"]) == ToFloat(Get(d, "ci_upper", JFloat(0.0)))
      && Ok(e["effect_estimate"]) == ToFloat(Get(d, "effect_estimate", JFloat(0.0)))
      && Ok(e["ci_lower"]) == ToFloat(Get(d, "ci_lower", JFloat(0.0)))
      && Ok(e["cost_to_scale"]) == ToFloat(Get(d, "cost_to_scale", JFloat(0.0)))
      && Ok(e["sample_size"]) == ToInt(Get(d, "sample_size", JInt(0)))
  {
    if !data.JObj? then Err(AttributeError("'" + TypeName(data) + "' object has no attribute 'get'"))
    else
      var d := data.fields;
      var ciUpper :- ToFloat(Get(d, "ci_upper", JFloat(0.0)));
      var effect :- ToFloat(Get(d, "effect_estimate", JFloat(0.0)));
      var ciLower :- ToFloat(Get(d, "ci_lower", JFloat(0.0)));
      var cost :- ToFloat(Get(d, "cost_to_scale", JFloat(0.0)));
      var size :- ToInt(Get(d, "sample_size", JInt(0)));
      Ok(map[
        "initiative_id" := JStr(EventId(m, dir)),
        "model_type" := JStr(m.modelType),
        "ci_upper" := ciUpper,
        "effect_estimate" := effect,
        "ci_lower" := ciLower,
        "cost_to_scale" := cost,
        "sample_size" := size])
  }

  /** `float(v)` as the JSON value the event stores. */
  function ToFloat(v: Json): (r: Result<Json>)
    ensures r.Ok? <==> PyFloat(v).Ok?
    ensures r.Ok? ==> r.value == JFloat(PyFloat(v).value)
  {
    var f :- PyFloat(v);
    Ok(JFloat(f))
  }

  /** `int(v)` as the JSON value the event stores. */
  function ToInt(v: Json): (r: Result<Json>)
    ensures r.Ok? <==> PyInt(v).Ok?
    ensures r.Ok? ==> r.value == JInt(PyInt(v).value)
  {
    var i :- PyInt(v);
    Ok(JInt(i))
  }

  /** `load_scorer_event(manifest, job_dir, overrides)`. */
  function LoadScorerEvent(o: Oracles, fs: Fs, m: Manifest, dir: Path, overrides: map<string, Json>)
    : (r: Result<map<string, Json>>)
    ensures !IsFile(fs, dir + [ResultsFilename]) ==>
      r == Err(FileNotFound("Impact results not found: " + PathText(dir + [ResultsFilename])))
    ensures r.Ok? ==> r.value.Keys == EventKeys + overrides.Keys
    ensures r.Ok? ==> forall k :: k in overrides ==> r.value[k] == overrides[k]
    ensures r.Ok? ==> IsFile(fs, dir + [ResultsFilename]) && o.loads(fs[dir][ResultsFilename]).Some?
    ensures r.Ok? ==>
      var e := EventOf(m, dir, o.loads(fs[dir][ResultsFilename]).value);
      e.Ok? && forall k :: k in EventKeys && k !in overrides ==> r.value[k] == e.value[k]
  {
    var p := dir + [ResultsFilename];
    assert Parent(p) == dir && Name(p) == ResultsFilename;
    if !IsFile(fs, p) then Err(FileNotFound("Impact results not found: " + PathText(p)))
    else match o.loads(fs[dir][ResultsFilename])
      case None => Err(JsonDecodeError)
      case Some(data) =>
        var event :- EventOf(m, dir, data);
        Ok(event + overrides)
  }

  /** With no overrides the event is exactly what the results file gives. */
  lemma NoOverridesNoChange(o: Oracles, fs: Fs, m: Manifest, dir: Path)
    requires LoadScorerEvent(o, fs, m, dir, map[]).Ok?
    ensures LoadScorerEvent(o, fs, m, dir, map[]).value
      == EventOf(m, dir, o.loads(fs[dir][ResultsFilename]).value).value
  {
    var e := EventOf(m, dir, o.loads(fs[dir][ResultsFilename]).value).value;
    assert e + map[] == e;
  }

  /** A cost override replaces `cost_to_scale` and nothing else. */
  lemma CostOverride(o: Oracles, fs: Fs, m: Manifest, dir: Path, cost: real)
    requires LoadScorerEvent(o, fs, m, dir, map[]).Ok?
    ensures var overridden := LoadScorerEvent(o, fs, m, dir, map["cost_to_scale" := JFloat(cost)]);
      overridden == Ok(LoadScorerEvent(o, fs, m, dir, map[]).value["cost_to_scale" := JFloat(cost)])
  {
    var ov := map["cost_to_scale" := JFloat(cost)];
    var e := EventOf(m, dir, o.loads(fs[dir][ResultsFilename]).value).value;
    OverridesApplied(o, fs, m, dir, map[]);
    OverridesApplied(o, fs, m, dir, ov);
    var base := LoadScorerEvent(o, fs, m, dir, map[]);
    var over := LoadScorerEvent(o, fs, m, dir, ov);
    assert e + map[] == e;
    assert base == Ok(e);
    UnionSingleton(e, "cost_to_scale", JFloat(cost));
    assert over == Ok(e["cost_to_scale" := JFloat(cost)]);
  }

  /** Once the results file reads, the event is the file's event updated
      with the overrides. */
  lemma OverridesApplied(o: Oracles, fs: Fs, m: Manifest, dir: Path, overrides: map<string, Json>)
    requires IsFile(fs, dir + [ResultsFilename]) && o.loads(fs[dir][ResultsFilename]).Some?
    requires EventOf(m, dir, o.loads(fs[dir][ResultsFilename]).value).Ok?
    ensures LoadScorerEvent(o, fs, m, dir, overrides)
      == Ok(EventOf(m, dir, o.loads(fs[dir][ResultsFilename]).value).value + overrides)
  {
  }

  lemma UnionSingleton<K, V>(e: map<K, V>, k: K, v: V)
    ensures e + map[k := v] == e[k := v]
  {
  }
}
