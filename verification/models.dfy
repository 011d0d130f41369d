/** The review stage's records: a scored dimension, a complete review, the
    artifact handed to a review, and a prompt specification.
 */
module Models {
  import opened Wrappers
  import opened Json

  datatype ReviewDimension = ReviewDimension(name: string, score: real, justification: string)

  datatype ReviewResult = ReviewResult(
    initiativeId: string,
    promptName: string,
    promptVersion: string,
    backendName: string,
    model: string,
    dimensions: seq<ReviewDimension>,
    overallScore: real,
    rawResponse: string,
    timestamp: string)

  /** A review result with the dataclass defaults for everything after `model`. */
  function NewReviewResult(initiativeId: string, promptName: string, promptVersion: string,
                           backendName: string, model: string): (r: ReviewResult)
    ensures r.dimensions == [] && r.overallScore == 0.0 && r.rawResponse == "" && r.timestamp == ""
    ensures r.initiativeId == initiativeId && r.promptName == promptName && r.model == model
  {
    ReviewResult(initiativeId, promptName, promptVersion, backendName, model, [], 0.0, "", "")
  }

  datatype ArtifactPayload = ArtifactPayload(
    initiativeId: string,
    artifactText: string,
    modelType: string,
    sampleSize: int,
    metadata: map<string, Json>)

  /** The event keys that become payload fields; the rest is metadata. */
  const KnownEventKeys: set<string> := {"initiative_id", "artifact_text", "model_type", "sample_size"}

  /** `ArtifactPayload.from_event`: the two required keys, two defaulted
      ones, and every other key passed through as metadata. */
  function FromEvent(event: map<string, Json>): (r: Result<ArtifactPayload>)
    ensures "initiative_id" !in event ==> r == Err(KeyError("initiative_id"))
    ensures "initiative_id" in event && "artifact_text" !in event ==> r == Err(KeyError("artifact_text"))
    ensures r.Ok? ==>
      && event["initiative_id"] == JStr(r.value.initiativeId)
      && event["artifact_text"] == JStr(r.value.artifactText)
      && Get(event, "model_type", JStr("")) == JStr(r.value.modelType)
      && Get(event, "sample_size", JInt(0)) == JInt(r.value.sampleSize)
      && r.value.metadata.Keys == event.Keys - KnownEventKeys
      && (forall k :: k in r.value.metadata ==> r.value.metadata[k] == event[k])
  {
    if "initiative_id" !in event then Err(KeyError("initiative_id"))
    else if "artifact_text" !in event then Err(KeyError("artifact_text"))
    else
      var id :- TextOf(event["initiative_id"], "initiative_id");
      var text :- TextOf(event["artifact_text"], "artifact_text");
      var modelType :- TextOf(Get(event, "model_type", JStr("")), "model_type");
      var size := Get(event, "sample_size", JInt(0));
      if !size.JInt? then Err(Unsupported("non-integer value for sample_size"))
      else
        Ok(ArtifactPayload(id, text, modelType, size.i,
          map k | k in event && k !in KnownEventKeys :: event[k]))
  }

  /** The event a payload stands for: its fields under their keys plus its metadata. */
  function ToEvent(p: ArtifactPayload): (e: map<string, Json>)
    ensures KnownEventKeys <= e.Keys
  {
    p.metadata + map[
      "initiative_id" := JStr(p.initiativeId),
      "artifact_text" := JStr(p.artifactText),
      "model_type" := JStr(p.modelType),
      "sample_size" := JInt(p.sampleSize)]
  }

  /** A payload survives the trip through its event when its metadata does
      not reuse a field's key. */
  lemma FromToEvent(p: ArtifactPayload)
    requires p.metadata.Keys !! KnownEventKeys
    ensures FromEvent(ToEvent(p)) == Ok(p)
  {
    var e := ToEvent(p);
    var m := map k | k in e && k !in KnownEventKeys :: e[k];
    assert m == p.metadata;
  }

  /** Decoding an event and encoding the payload gives the event back once
      the defaulted keys are filled in. */
  lemma ToFromEvent(event: map<string, Json>)
    requires FromEvent(event).Ok?
    requires "model_type" in event && "sample_size" in event
    ensures ToEvent(FromEvent(event).value) == event
  {
  }

  datatype PromptSpec = PromptSpec(
    name: string,
    version: string,
    description: string,
    dimensions: seq<string>,
    systemTemplate: string,
    userTemplate: string)
}
