/** The earlier scorer, `score_initiative`: the same seeded uniform draw
    (with NumPy's generator), returned together with the event's scenario
    returns as a plain dict.
 */
module LegacyScorer {
  import opened Wrappers
  import opened Json
  import opened Oracles
  import opened Scorer

  /** The event keys read after the draw, in the order they are read. */
  const ReadOrder: seq<string> := ["cost_to_scale", "ci_upper", "effect_estimate", "ci_lower", "model_type", "sample_size"]

  /** The position of the first key of `keys` missing from `event`, or `|keys|`. */
  function FirstMissing(event: map<string, Json>, keys: seq<string>): (k: nat)
    ensures k <= |keys|
    ensures forall j :: 0 <= j < k ==> keys[j] in event
    ensures k < |keys| ==> keys[k] !in event
  {
    if keys == [] then 0
    else if keys[0] !in event then 0
    else 1 + FirstMissing(event, keys[1..])
  }

  /** Every field the result copies is present. */
  predicate HasScenario(event: map<string, Json>)
  {
    && "cost_to_scale" in event && "ci_upper" in event && "effect_estimate" in event
    && "ci_lower" in event && "model_type" in event && "sample_size" in event
  }

  /** `score_initiative(event, confidence_range)`. */
  function ScoreInitiative(o: Oracles, event: map<string, Json>, range: (real, real)): (r: Result<map<string, Json>>)
    ensures "initiative_id" !in event ==> r == Err(KeyError("initiative_id"))
    ensures "initiative_id" in event && !event["initiative_id"].JStr? ==> r.Err? && r.error.AttributeError?
    ensures r.Ok? <==> "initiative_id" in event && event["initiative_id"].JStr?
                       && HasScenario(event)
    ensures r.Ok? ==>
      var d := r.value;
      && d.Keys == {"initiative_id", "confidence", "cost", "return_best", "return_median", "return_worst",
                    "model_type", "sample_size"}
      && d["initiative_id"] == event["initiative_id"]
      && d["cost"] == event["cost_to_scale"]
      && d["return_best"] == event["ci_upper"]
      && d["return_median"] == event["effect_estimate"]
      && d["return_worst"] == event["ci_lower"]
      && d["model_type"] == event["model_type"]
      && d["sample_size"] == event["sample_size"]
      && d["confidence"] == JFloat(Uniform(range.0, range.1, o.npRandom(StableSeed(o, event["initiative_id"].s))))
  {
    if "initiative_id" !in event then Err(KeyError("initiative_id"))
    else
      var id := event["initiative_id"];
      if !id.JStr? then Err(AttributeError("'" + TypeName(id) + "' object has no attribute 'encode'"))
      else
        var confidence := Uniform(range.0, range.1, o.npRandom(StableSeed(o, id.s)));
        var k := FirstMissing(event, ReadOrder);
        if k < |ReadOrder| then Err(KeyError(ReadOrder[k]))
        else
          assert ReadOrder[0] in event && ReadOrder[1] in event && ReadOrder[2] in event;
          assert ReadOrder[3] in event && ReadOrder[4] in event && ReadOrder[5] in event;
          Ok(map[
            "initiative_id" := id,
            "confidence" := JFloat(confidence),
            "cost" := event["cost_to_scale"],
            "return_best" := event["ci_upper"],
            "return_median" := event["effect_estimate"],
            "return_worst" := event["ci_lower"],
            "model_type" := event["model_type"],
            "sample_size" := event["sample_size"]])
  }

  /** The legacy draw stays inside the range, like the current scorer's. */
  lemma LegacyConfidenceInRange(o: Oracles, event: map<string, Json>, range: (real, real))
    requires range.0 <= range.1
    requires ScoreInitiative(o, event, range).Ok?
    ensures var c := ScoreInitiative(o, event, range).value["confidence"];
      c.JFloat? && range.0 <= c.f <= range.1
  {
  }

  /** A missing scenario field is reported by the first one in read order. */
  lemma MissingCostReportedFirst(o: Oracles, event: map<string, Json>, range: (real, real))
    requires "initiative_id" in event && event["initiative_id"].JStr?
    requires "cost_to_scale" !in event
    ensures ScoreInitiative(o, event, range) == Err(KeyError("cost_to_scale"))
  {
  }
}
