/** The stage's outputs and their `dataclasses.asdict` form, which is what
    `json.dumps` writes into the job directory. Each encoding has a decoder
    that reads it back.
 */
module Results {
  import opened Wrappers
  import opened Json
  import opened Models

  function DimensionJson(d: ReviewDimension): Json
  {
    JObj(map["name" := JStr(d.name), "score" := JFloat(d.score), "justification" := JStr(d.justification)])
  }

  function DimensionOfJson(j: Json): (r: Option<ReviewDimension>)
    ensures r.Some? ==> j.JObj? && "name" in j.fields && j.fields["name"] == JStr(r.value.name)
  {
    if j.JObj? && "name" in j.fields && "score" in j.fields && "justification" in j.fields
       && j.fields["name"].JStr? && j.fields["score"].JFloat? && j.fields["justification"].JStr?
    then Some(ReviewDimension(j.fields["name"].s, j.fields["score"].f, j.fields["justification"].s))
    else None
  }

  function DimensionsJson(ds: seq<ReviewDimension>): (r: seq<Json>)
    ensures |r| == |ds|
  {
    if ds == [] then [] else [DimensionJson(ds[0])] + DimensionsJson(ds[1..])
  }

  function DimensionsOfJson(js: seq<Json>): (r: Option<seq<ReviewDimension>>)
    ensures r.Some? ==> |r.value| == |js|
  {
    if js == [] then Some([])
    else
      match (DimensionOfJson(js[0]), DimensionsOfJson(js[1..]))
      case (Some(d), Some(rest)) => Some([d] + rest)
      case _ => None
  }

  lemma {:induction false} DimensionsRoundTrip(ds: seq<ReviewDimension>)
    ensures DimensionsOfJson(DimensionsJson(ds)) == Some(ds)
  {
    if ds != [] {
      var js := DimensionsJson(ds);
      assert js[0] == DimensionJson(ds[0]) && js[1..] == DimensionsJson(ds[1..]);
      DimensionsRoundTrip(ds[1..]);
      DimensionRoundTrip(ds[0]);
      assert [ds[0]] + ds[1..] == ds;
    }
  }

  lemma DimensionRoundTrip(d: ReviewDimension)
    ensures DimensionOfJson(DimensionJson(d)) == Some(d)
  {
  }

  function ReviewResultJson(r: ReviewResult): Json
  {
    JObj(map[
      "initiative_id" := JStr(r.initiativeId),
      "prompt_name" := JStr(r.promptName),
      "prompt_version" := JStr(r.promptVersion),
      "backend_name" := JStr(r.backendName),
      "model" := JStr(r.model),
      "dimensions" := JArr(DimensionsJson(r.dimensions)),
      "overall_score" := JFloat(r.overallScore),
      "raw_response" := JStr(r.rawResponse),
      "timestamp" := JStr(r.timestamp)])
  }

  predicate HasStr(m: map<string, Json>, k: string)
  {
    k in m && m[k].JStr?
  }

  function ReviewResultOfJson(j: Json): (r: Option<ReviewResult>)
    ensures r.Some? ==> j.JObj? && "initiative_id" in j.fields && j.fields["initiative_id"] == JStr(r.value.initiativeId)
  {
    if !j.JObj? then None
    else
      var m := j.fields;
      if !(HasStr(m, "initiative_id") && HasStr(m, "prompt_name") && HasStr(m, "prompt_version")
           && HasStr(m, "backend_name") && HasStr(m, "model") && HasStr(m, "raw_response")
           && HasStr(m, "timestamp") && "dimensions" in m && m["dimensions"].JArr?
           && "overall_score" in m && m["overall_score"].JFloat?)
      then None
      else
        match DimensionsOfJson(m["dimensions"].items)
        case None => None
        case Some(ds) =>
          Some(ReviewResult(m["initiative_id"].s, m["prompt_name"].s, m["prompt_version"].s,
            m["backend_name"].s, m["model"].s, ds, m["overall_score"].f, m["raw_response"].s,
            m["timestamp"].s))
  }

  /** What `review_result.json` holds reads back as the review it was written from. */
  lemma ReviewResultRoundTrip(r: ReviewResult)
    ensures ReviewResultOfJson(ReviewResultJson(r)) == Some(r)
  {
    ReviewJsonFields(r);
    DimensionsRoundTrip(r.dimensions);
    ReviewFromFields(ReviewResultJson(r).fields, r);
  }

  /** Every field of the review is stored under its key. */
  predicate HoldsReview(m: map<string, Json>, r: ReviewResult)
  {
    && "initiative_id" in m && m["initiative_id"] == JStr(r.initiativeId)
    && "prompt_name" in m && m["prompt_name"] == JStr(r.promptName)
    && "prompt_version" in m && m["prompt_version"] == JStr(r.promptVersion)
    && "backend_name" in m && m["backend_name"] == JStr(r.backendName)
    && "model" in m && m["model"] == JStr(r.model)
    && "dimensions" in m && m["dimensions"] == JArr(DimensionsJson(r.dimensions))
    && "overall_score" in m && m["overall_score"] == JFloat(r.overallScore)
    && "raw_response" in m && m["raw_response"] == JStr(r.rawResponse)
    && "timestamp" in m && m["timestamp"] == JStr(r.timestamp)
  }

  lemma ReviewJsonFields(r: ReviewResult)
    ensures HoldsReview(ReviewResultJson(r).fields, r)
  {
  }

  lemma ReviewFromFields(m: map<string, Json>, r: ReviewResult)
    requires HoldsReview(m, r) && DimensionsOfJson(DimensionsJson(r.dimensions)) == Some(r.dimensions)
    ensures ReviewResultOfJson(JObj(m)) == Some(r)
  {
  }

  /** `EvaluateResult.report`: text for the score strategy, the full review
      for the review strategy. */
  datatype Report = TextReport(text: string) | ReviewReport(review: ReviewResult)

  datatype EvaluateResult = EvaluateResult(
    initiativeId: string,
    confidence: real,
    confidenceRange: (real, real),
    strategy: string,
    report: Report)

  function RangeJson(range: (real, real)): Json
  {
    JArr([JFloat(range.0), JFloat(range.1)])
  }

  function RangeOfJson(j: Json): Option<(real, real)>
  {
    if j.JArr? && |j.items| == 2 && j.items[0].JFloat? && j.items[1].JFloat?
    then Some((j.items[0].f, j.items[1].f))
    else None
  }

  function ReportJson(rep: Report): Json
  {
    match rep
    case TextReport(t) => JStr(t)
    case ReviewReport(r) => ReviewResultJson(r)
  }

  function ReportOfJson(j: Json): Option<Report>
  {
    if j.JStr? then Some(TextReport(j.s))
    else match ReviewResultOfJson(j)
      case Some(r) => Some(ReviewReport(r))
      case None => None
  }

  function EvaluateResultJson(e: EvaluateResult): Json
  {
    JObj(map[
      "initiative_id" := JStr(e.initiativeId),
      "confidence" := JFloat(e.confidence),
      "confidence_range" := RangeJson(e.confidenceRange),
      "strategy" := JStr(e.strategy),
      "report" := ReportJson(e.report)])
  }

  function EvaluateResultOfJson(j: Json): (r: Option<EvaluateResult>)
    ensures r.Some? ==> j.JObj? && "strategy" in j.fields && j.fields["strategy"] == JStr(r.value.strategy)
  {
    if !(j.JObj? && HasStr(j.fields, "initiative_id") && HasStr(j.fields, "strategy")
         && "confidence" in j.fields && j.fields["confidence"].JFloat?
         && "confidence_range" in j.fields && "report" in j.fields)
    then None
    else
      var m := j.fields;
      match (RangeOfJson(m["confidence_range"]), ReportOfJson(m["report"]))
      case (Some(range), Some(rep)) =>
        Some(EvaluateResult(m["initiative_id"].s, m["confidence"].f, range, m["strategy"].s, rep))
      case _ => None
  }

  /** What `evaluate_result.json` holds reads back as the result it was written from. */
  lemma EvaluateResultRoundTrip(e: EvaluateResult)
    ensures EvaluateResultOfJson(EvaluateResultJson(e)) == Some(e)
  {
    ReportRoundTrip(e.report);
    EvaluateJsonFields(e);
    EvaluateFromFields(EvaluateResultJson(e).fields, e);
  }

  lemma ReportRoundTrip(rep: Report)
    ensures ReportOfJson(ReportJson(rep)) == Some(rep)
  {
    if rep.ReviewReport? {
      ReviewResultRoundTrip(rep.review);
    }
  }

  /** Every field of the result is stored under its key. */
  predicate HoldsEvaluate(m: map<string, Json>, e: EvaluateResult)
  {
    && "initiative_id" in m && m["initiative_id"] == JStr(e.initiativeId)
    && "confidence" in m && m["confidence"] == JFloat(e.confidence)
    && "confidence_range" in m && m["confidence_range"] == RangeJson(e.confidenceRange)
    && "strategy" in m && m["strategy"] == JStr(e.strategy)
    && "report" in m && m["report"] == ReportJson(e.report)
  }

  lemma EvaluateJsonFields(e: EvaluateResult)
    ensures HoldsEvaluate(EvaluateResultJson(e).fields, e)
  {
  }

  lemma EvaluateFromFields(m: map<string, Json>, e: EvaluateResult)
    requires HoldsEvaluate(m, e) && ReportOfJson(ReportJson(e.report)) == Some(e.report)
    ensures EvaluateResultOfJson(JObj(m)) == Some(e)
  {
  }
}
