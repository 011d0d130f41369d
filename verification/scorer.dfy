/** The score strategy: a confidence drawn uniformly from the method's
    range by a generator seeded with a stable hash of the initiative id.
 */
module Scorer {
  import Wrappers
  import opened Json
  import opened Oracles

  const SeedModulus := 0x1_0000_0000

  /** `_stable_seed`: the MD5 digest reduced to 32 bits. */
  function StableSeed(o: Oracles, s: string): (seed: nat)
    ensures seed < SeedModulus
    ensures (seed - o.md5(s)) % SeedModulus == 0
  {
    o.md5(s) % SeedModulus
  }

  /** `rng.uniform(a, b)` for a unit draw `u`. */
  function Uniform(a: real, b: real, u: UnitReal): (x: real)
    ensures a <= b ==> a <= x <= b
    ensures a < b ==> x < b
    ensures b < a ==> b < x <= a
    ensures a == b ==> x == a
  {
    a + Scaled(b - a, u)
  }

  /** The offset `(b - a) * u`: it lies between zero and the span, never
      reaching the span itself. */
  function Scaled(w: real, u: UnitReal): (x: real)
    ensures w > 0.0 ==> 0.0 <= x < w
    ensures w < 0.0 ==> w < x <= 0.0
    ensures w == 0.0 ==> x == 0.0
  {
    if w < 0.0 then
      MulStrict(-w, u);
      assert w * u == -((-w) * u);
      w * u
    else if w > 0.0 then
      MulStrict(w, u);
      w * u
    else
      w * u
  }

  lemma MulStrict(w: real, u: real)
    requires w > 0.0 && 0.0 <= u < 1.0
    ensures 0.0 <= w * u < w
  {
  }

  datatype ScoreResult = ScoreResult(initiativeId: string, confidence: real, confidenceRange: (real, real))

  /** `score_confidence(initiative_id, confidence_range)`. */
  function ScoreConfidence(o: Oracles, initiativeId: string, range: (real, real)): (r: ScoreResult)
    ensures r.initiativeId == initiativeId && r.confidenceRange == range
    ensures range.0 <= range.1 ==> range.0 <= r.confidence <= range.1
    ensures range.1 < range.0 ==> range.1 < r.confidence <= range.0
    ensures r.confidence == Uniform(range.0, range.1, o.pyRandom(StableSeed(o, initiativeId)))
  {
    var seed := StableSeed(o, initiativeId);
    ScoreResult(initiativeId, Uniform(range.0, range.1, o.pyRandom(seed)), range)
  }

  /** Two initiatives whose ids hash to the same 32-bit seed get the same
      confidence from the same range; in particular a repeated run does. */
  lemma SameSeedSameScore(o: Oracles, a: string, b: string, range: (real, real))
    requires o.md5(a) % SeedModulus == o.md5(b) % SeedModulus
    ensures ScoreConfidence(o, a, range).confidence == ScoreConfidence(o, b, range).confidence
  {
  }

  /** `asdict(result)`, the content of `score_result.json`. */
  function ScoreResultJson(r: ScoreResult): Json
  {
    JObj(map[
      "initiative_id" := JStr(r.initiativeId),
      "confidence" := JFloat(r.confidence),
      "confidence_range" := JArr([JFloat(r.confidenceRange.0), JFloat(r.confidenceRange.1)])])
  }

  function ScoreResultOfJson(j: Json): (r: Wrappers.Option<ScoreResult>)
    ensures r.Some? ==> j.JObj? && "confidence" in j.fields && j.fields["confidence"] == JFloat(r.value.confidence)
  {
    if j.JObj? && "initiative_id" in j.fields && j.fields["initiative_id"].JStr?
       && "confidence" in j.fields && j.fields["confidence"].JFloat?
       && "confidence_range" in j.fields && j.fields["confidence_range"].JArr?
       && |j.fields["confidence_range"].items| == 2
       && j.fields["confidence_range"].items[0].JFloat? && j.fields["confidence_range"].items[1].JFloat?
    then
      var range := j.fields["confidence_range"].items;
      Wrappers.Some(ScoreResult(j.fields["initiative_id"].s, j.fields["confidence"].f, (range[0].f, range[1].f)))
    else Wrappers.None
  }

  /** What `score_result.json` holds reads back as the result. */
  lemma ScoreResultRoundTrip(r: ScoreResult)
    ensures ScoreResultOfJson(ScoreResultJson(r)) == Wrappers.Some(r)
  {
  }
}
