/** The package entry point `evaluate_confidence`: route a job directory by
    its manifest's strategy and model type, compute a confidence by the
    score strategy or the review strategy, and write `evaluate_result.json`
    (and, for the score strategy, `score_result.json`).

    The review strategy is `review(job_dir, config=config)`; the routing
    and writing here are stated for any review step, and
    `EvaluateConfidence` plugs in the one `ReviewApi` defines.
 */
module Evaluate {
  import opened Wrappers
  import opened Text
  import opened Json
  import opened Files
  import opened Oracles
  import opened Models
  import Config
  import Manifest
  import Methods
  import JobReader
  import Scorer
  import Results
  import ReviewApi

  const EvaluateResultFilename := "evaluate_result.json"
  const ScoreResultFilename := "score_result.json"

  /** `EvaluationRouter._KNOWN_STRATEGIES`. */
  const KnownStrategies: set<string> := {"score", "review"}

  function UnknownStrategyMessage(strategy: string): string
  {
    "Unknown evaluate_strategy: " + Repr(strategy)
  }

  function NoRangeMessage(className: string): string
  {
    "'" + className + "' object has no attribute 'confidence_range'"
  }

  /** `EvaluationRouter.route`: the strategy is checked before the model type. */
  function Route(reviewers: map<string, Methods.Reviewer>, m: Manifest.Manifest): (r: Result<(string, Methods.Reviewer)>)
    ensures m.evaluateStrategy !in KnownStrategies ==> r == Err(ValueError(UnknownStrategyMessage(m.evaluateStrategy)))
    ensures m.evaluateStrategy in KnownStrategies ==> (r.Ok? <==> m.modelType in reviewers)
    ensures r.Ok? ==> r.value == (m.evaluateStrategy, reviewers[m.modelType])
    ensures m.evaluateStrategy in KnownStrategies && r.Err? ==>
      r == Methods.Create(reviewers, m.modelType).PropagateFailure()
  {
    if m.evaluateStrategy !in KnownStrategies then Err(ValueError(UnknownStrategyMessage(m.evaluateStrategy)))
    else
      var reviewer :- Methods.Create(reviewers, m.modelType);
      Ok((m.evaluateStrategy, reviewer))
  }

  /** `EvaluationRouter.route` as written, instantiating the reviewer with
      the registry's `create` as written. */
  function RouteAsWritten(reviewers: map<string, Methods.Reviewer>, m: Manifest.Manifest): (r: Result<(string, Methods.Reviewer)>)
    ensures m.evaluateStrategy !in KnownStrategies ==> r == Route(reviewers, m)
    ensures r.Ok? ==> r == Route(reviewers, m)
    ensures m.evaluateStrategy in KnownStrategies ==> (r.Err? <==> Methods.CreateAsWritten(reviewers, m.modelType).Err?)
    ensures m.evaluateStrategy in KnownStrategies && r.Err? ==>
      r == Methods.CreateAsWritten(reviewers, m.modelType).PropagateFailure()
  {
    if m.evaluateStrategy !in KnownStrategies then Err(ValueError(UnknownStrategyMessage(m.evaluateStrategy)))
    else
      var reviewer :- Methods.CreateAsWritten(reviewers, m.modelType);
      Ok((m.evaluateStrategy, reviewer))
  }

  /** As written, every manifest with a known strategy fails to route, with
      the registry's `TypeError` for a built-in model type and its `KeyError`
      for any other. */
  lemma RouteAsWrittenFails(m: Manifest.Manifest)
    requires m.evaluateStrategy in KnownStrategies
    ensures RouteAsWritten(Methods.WithQuasiExperimental(Methods.Builtins), m).Err?
    ensures m.modelType == "experiment" ==>
      RouteAsWritten(Methods.WithQuasiExperimental(Methods.Builtins), m)
        == Err(TypeError(Methods.AbstractMessage("ExperimentReviewer")))
    ensures m.modelType == "quasi_experimental" ==>
      RouteAsWritten(Methods.WithQuasiExperimental(Methods.Builtins), m)
        == Err(TypeError(Methods.AbstractMessage("QuasiExperimentalReviewer")))
    ensures Route(Methods.WithQuasiExperimental(Methods.Builtins), m).Ok? <==>
      m.modelType == "experiment" || m.modelType == "quasi_experimental"
  {
    Methods.BuiltinsNotInstantiable(Methods.WithQuasiExperimental(Methods.Builtins), m.modelType);
  }

  /** The overrides `evaluate_confidence` hands the job reader. */
  function Overrides(costToScale: Option<real>): (overrides: map<string, Json>)
    ensures costToScale.None? ==> overrides == map[]
    ensures costToScale.Some? ==> overrides == map["cost_to_scale" := JFloat(costToScale.value)]
  {
    if costToScale.Some? then map["cost_to_scale" := JFloat(costToScale.value)] else map[]
  }

  /** `path.write_text(json.dumps(asdict(v), indent=2) + "\n")`. */
  function WriteJson(o: Oracles, fs: Fs, p: Path, v: Json): (r: Result<Fs>)
    ensures r.Ok? <==> p != [] && IsDir(fs, Parent(p))
  {
    Write(fs, p, o.dumps(v) + "\n")
  }

  /** The score strategy's report. */
  function RangeText(o: Oracles, range: (real, real)): string
  {
    "Confidence drawn uniformly between " + o.fmt2(range.0) + " and " + o.fmt2(range.1)
  }

  /** The review strategy's step, run on the file system and registries as
      they stand: the review and the file system after it wrote its file. */
  type Reviewing = (Fs, ReviewApi.Registries) -> (Result<(ReviewResult, Fs)>, ReviewApi.Registries)

  /** `review(job_dir, config=source)` as a review step. */
  function ReviewOf(c: ReviewApi.Context, dir: Path, source: Config.Source): Reviewing
  {
    (fs: Fs, regs: ReviewApi.Registries) => ReviewApi.ReviewJob(c, fs, regs, dir, source)
  }

  /** What one strategy contributes: the confidence, the report and the
      file system after the strategy's own output is written. */
  datatype Scored = Scored(confidence: real, report: Results.Report, fs: Fs)

  /** The score strategy: a seeded draw from the reviewer's range, written
      to `score_result.json`. */
  function ScoreStrategy(o: Oracles, fs: Fs, dir: Path, id: string, range: (real, real)): (r: Result<Scored>)
    ensures r.Ok? <==> IsDir(fs, dir)
    ensures r.Ok? ==>
      && r.value.confidence == Scorer.ScoreConfidence(o, id, range).confidence
      && r.value.report == Results.TextReport(RangeText(o, range))
      && Write(fs, dir + [ScoreResultFilename], o.dumps(Scorer.ScoreResultJson(Scorer.ScoreConfidence(o, id, range))) + "\n")
         == Ok(r.value.fs)
    ensures r.Ok? && range.0 <= range.1 ==> range.0 <= r.value.confidence <= range.1
  {
    var result := Scorer.ScoreConfidence(o, id, range);
    assert Parent(dir + [ScoreResultFilename]) == dir;
    var fs' :- WriteJson(o, fs, dir + [ScoreResultFilename], Scorer.ScoreResultJson(result));
    Ok(Scored(result.confidence, Results.TextReport(RangeText(o, range)), fs'))
  }

  /** The review strategy: the review's overall score is the confidence and
      the review itself is the report. */
  function ReviewStrategy(review: Reviewing, fs: Fs, regs: ReviewApi.Registries): (r: (Result<Scored>, ReviewApi.Registries))
    ensures r.1 == review(fs, regs).1
    ensures r.0.Ok? <==> review(fs, regs).0.Ok?
    ensures r.0.Ok? ==>
      var (res, fs') := review(fs, regs).0.value;
      r.0.value == Scored(res.overallScore, Results.ReviewReport(res), fs')
  {
    var (reviewed, regs') := review(fs, regs);
    match reviewed
    case Err(e) => (Err(e), regs')
    case Ok((res, fs')) => (Ok(Scored(res.overallScore, Results.ReviewReport(res), fs')), regs')
  }

  /** Everything after routing that does not depend on the strategy. */
  datatype Routed = Routed(manifest: Manifest.Manifest, strategy: string, reviewer: Methods.Reviewer,
                           id: string, range: (real, real))

  /** The manifest, the route, the scorer event and the confidence range. */
  function RouteJob(o: Oracles, reviewers: map<string, Methods.Reviewer>, fs: Fs, dir: Path, costToScale: Option<real>)
    : (r: Result<Routed>)
    ensures Manifest.LoadManifest(o, fs, dir).Err? ==> r == Manifest.LoadManifest(o, fs, dir).PropagateFailure()
    ensures Manifest.LoadManifest(o, fs, dir).Ok? ==>
      var m := Manifest.LoadManifest(o, fs, dir).value;
      Route(reviewers, m).Err? ==> r == Route(reviewers, m).PropagateFailure()
    ensures r.Ok? ==>
      && Manifest.LoadManifest(o, fs, dir) == Ok(r.value.manifest)
      && Route(reviewers, r.value.manifest) == Ok((r.value.strategy, r.value.reviewer))
      && r.value.reviewer.confidenceRange == Some(r.value.range)
      && JobReader.LoadScorerEvent(o, fs, r.value.manifest, dir, Overrides(costToScale)).Ok?
      && JobReader.LoadScorerEvent(o, fs, r.value.manifest, dir, Overrides(costToScale)).value["initiative_id"]
         == JStr(r.value.id)
      && r.value.id == JobReader.EventId(r.value.manifest, dir)
    ensures Manifest.LoadManifest(o, fs, dir).Ok? ==>
      var m := Manifest.LoadManifest(o, fs, dir).value;
      Route(reviewers, m).Ok? && JobReader.LoadScorerEvent(o, fs, m, dir, Overrides(costToScale)).Ok? ==>
      var reviewer := Route(reviewers, m).value.1;
      reviewer.confidenceRange.None? ==> r == Err(AttributeError(NoRangeMessage(reviewer.className)))
  {
    var m :- Manifest.LoadManifest(o, fs, dir);
    var (strategy, reviewer) :- Route(reviewers, m);
    var event :- JobReader.LoadScorerEvent(o, fs, m, dir, Overrides(costToScale));
    match reviewer.confidenceRange
    case None => Err(AttributeError(NoRangeMessage(reviewer.className)))
    case Some(range) =>
      ScorerEventId(o, fs, m, dir, costToScale);
      Ok(Routed(m, strategy, reviewer, event["initiative_id"].s, range))
  }

  /** The scorer event's `initiative_id` is always the manifest's id or the
      directory name: the overrides only ever hold `cost_to_scale`. */
  lemma ScorerEventId(o: Oracles, fs: Fs, m: Manifest.Manifest, dir: Path, costToScale: Option<real>)
    requires JobReader.LoadScorerEvent(o, fs, m, dir, Overrides(costToScale)).Ok?
    ensures JobReader.LoadScorerEvent(o, fs, m, dir, Overrides(costToScale)).value["initiative_id"]
            == JStr(JobReader.EventId(m, dir))
  {
  }

  /** The strategy's contribution for a routed job. */
  function Strategy(o: Oracles, fs: Fs, regs: ReviewApi.Registries, dir: Path, rt: Routed, review: Reviewing)
    : (r: (Result<Scored>, ReviewApi.Registries))
    ensures rt.strategy == "score" ==> r == (ScoreStrategy(o, fs, dir, rt.id, rt.range), regs)
    ensures rt.strategy != "score" ==> r == ReviewStrategy(review, fs, regs)
  {
    if rt.strategy == "score" then (ScoreStrategy(o, fs, dir, rt.id, rt.range), regs)
    else ReviewStrategy(review, fs, regs)
  }

  /** The result of a routed job and its strategy's contribution, written
      to `evaluate_result.json`. */
  function Finish(o: Oracles, dir: Path, rt: Routed, scored: Result<Scored>): (r: Result<(Results.EvaluateResult, Fs)>)
    ensures scored.Err? ==> r == scored.PropagateFailure()
    ensures r.Ok? ==>
      && scored.Ok?
      && r.value.0 == Results.EvaluateResult(rt.id, scored.value.confidence, rt.range, rt.strategy, scored.value.report)
      && WriteJson(o, scored.value.fs, dir + [EvaluateResultFilename], Results.EvaluateResultJson(r.value.0))
         == Ok(r.value.1)
  {
    var s :- scored;
    var result := Results.EvaluateResult(rt.id, s.confidence, rt.range, rt.strategy, s.report);
    var fs' :- WriteJson(o, s.fs, dir + [EvaluateResultFilename], Results.EvaluateResultJson(result));
    Ok((result, fs'))
  }

  /** `evaluate_confidence(config, job_dir, cost_to_scale=...)` with the
      review strategy carried out by `review`: the result and the file
      system with its output files written. */
  function EvaluateWith(o: Oracles, reviewers: map<string, Methods.Reviewer>, fs: Fs, regs: ReviewApi.Registries,
                        dir: Path, costToScale: Option<real>, review: Reviewing)
    : (r: (Result<(Results.EvaluateResult, Fs)>, ReviewApi.Registries))
    ensures RouteJob(o, reviewers, fs, dir, costToScale).Err? ==>
      r == (RouteJob(o, reviewers, fs, dir, costToScale).PropagateFailure(), regs)
    ensures r.0.Ok? ==>
      var (e, fs') := r.0.value;
      var rt := RouteJob(o, reviewers, fs, dir, costToScale).value;
      && RouteJob(o, reviewers, fs, dir, costToScale).Ok?
      && e.initiativeId == rt.id && e.strategy == rt.strategy && e.confidenceRange == rt.range
      && e.strategy in KnownStrategies
      && (e.strategy == "score" ==> e.report.TextReport? && r.1 == regs)
      && (e.strategy == "review" ==>
            && review(fs, regs).0.Ok?
            && e.report == Results.ReviewReport(review(fs, regs).0.value.0)
            && e.confidence == review(fs, regs).0.value.0.overallScore
            && r.1 == review(fs, regs).1)
  {
    match RouteJob(o, reviewers, fs, dir, costToScale)
    case Err(e) => (Err(e), regs)
    case Ok(rt) =>
      var (scored, regs') := Strategy(o, fs, regs, dir, rt, review);
      (Finish(o, dir, rt, scored), regs')
  }

  /** `evaluate_confidence(config=source, job_dir=dir, cost_to_scale=...)`. */
  function EvaluateConfidence(c: ReviewApi.Context, fs: Fs, regs: ReviewApi.Registries, source: Config.Source,
                              dir: Path, costToScale: Option<real>)
    : (r: (Result<(Results.EvaluateResult, Fs)>, ReviewApi.Registries))
    ensures r.0.Ok? ==> Outcome(c.o, dir, r.0.value.0, r.0.value.1)
  {
    var review := ReviewOf(c, dir, source);
    ReviewWithinUnit(c, fs, regs, dir, source);
    OutcomeOf(c.o, c.reviewers, fs, regs, dir, costToScale, review);
    EvaluateWith(c.o, c.reviewers, fs, regs, dir, costToScale, review)
  }

  /** What a successful `evaluate_confidence` promises: a known strategy, a
      score-strategy confidence within the reviewer's range, a
      review-strategy confidence in [0, 1], and, with a faithful JSON
      codec, an `evaluate_result.json` that reads back as the result. */
  ghost predicate Outcome(o: Oracles, dir: Path, e: Results.EvaluateResult, fs': Fs)
  {
    && e.strategy in KnownStrategies
    && (e.strategy == "score" && e.confidenceRange.0 <= e.confidenceRange.1 ==>
          e.confidenceRange.0 <= e.confidence <= e.confidenceRange.1)
    && (e.strategy == "review" ==> 0.0 <= e.confidence <= 1.0)
    && (Manifest.CodecRoundTrips(o) ==>
          && Read(fs', dir + [EvaluateResultFilename]).Ok?
          && o.loads(Read(fs', dir + [EvaluateResultFilename]).value).Some?
          && Results.EvaluateResultOfJson(o.loads(Read(fs', dir + [EvaluateResultFilename]).value).value) == Some(e))
  }

  /** A successful run has the promised outcome for any review step whose
      overall scores lie in [0, 1]. */
  lemma OutcomeOf(o: Oracles, reviewers: map<string, Methods.Reviewer>, fs: Fs, regs: ReviewApi.Registries,
                  dir: Path, costToScale: Option<real>, review: Reviewing)
    requires review(fs, regs).0.Ok? ==> 0.0 <= review(fs, regs).0.value.0.overallScore <= 1.0
    ensures var r := EvaluateWith(o, reviewers, fs, regs, dir, costToScale, review);
      r.0.Ok? ==> Outcome(o, dir, r.0.value.0, r.0.value.1)
  {
    var r := EvaluateWith(o, reviewers, fs, regs, dir, costToScale, review);
    if r.0.Ok? {
      var (e, fs') := r.0.value;
      if e.strategy == "score" && e.confidenceRange.0 <= e.confidenceRange.1 {
        ScoreWithinRange(o, reviewers, fs, regs, dir, costToScale, review);
      }
      if Manifest.CodecRoundTrips(o) {
        EvaluateFileReadsBack(o, reviewers, fs, regs, dir, costToScale, review);
      }
    }
  }

  // ---------------------------------------------------------------------
  // Properties
  // ---------------------------------------------------------------------

  /** A manifest that says `agentic` (the default when it says nothing) is
      rejected before anything is read or written. */
  lemma AgenticRejected(o: Oracles, reviewers: map<string, Methods.Reviewer>, fs: Fs, regs: ReviewApi.Registries,
                        dir: Path, costToScale: Option<real>, review: Reviewing)
    requires Manifest.LoadManifest(o, fs, dir).Ok?
    requires Manifest.LoadManifest(o, fs, dir).value.evaluateStrategy == Manifest.DefaultStrategy
    ensures EvaluateWith(o, reviewers, fs, regs, dir, costToScale, review)
      == (Err(ValueError(UnknownStrategyMessage("agentic"))), regs)
  {
    assert "agentic"[0] == 'a' && "score"[0] == 's' && "review"[0] == 'r';
    assert Manifest.DefaultStrategy !in KnownStrategies;
  }

  /** The score strategy never calls the review step, so neither the review
      configuration nor the review stage affects its result. */
  lemma ScoreIgnoresReview(o: Oracles, reviewers: map<string, Methods.Reviewer>, fs: Fs, regs: ReviewApi.Registries,
                           dir: Path, costToScale: Option<real>, r1: Reviewing, r2: Reviewing)
    requires RouteJob(o, reviewers, fs, dir, costToScale).Ok?
    requires RouteJob(o, reviewers, fs, dir, costToScale).value.strategy == "score"
    ensures EvaluateWith(o, reviewers, fs, regs, dir, costToScale, r1)
         == EvaluateWith(o, reviewers, fs, regs, dir, costToScale, r2)
  {
    var rt := RouteJob(o, reviewers, fs, dir, costToScale).value;
    assert Strategy(o, fs, regs, dir, rt, r1) == Strategy(o, fs, regs, dir, rt, r2);
  }

  /** The score strategy's confidence lies in the reviewer's range. */
  lemma ScoreWithinRange(o: Oracles, reviewers: map<string, Methods.Reviewer>, fs: Fs, regs: ReviewApi.Registries,
                         dir: Path, costToScale: Option<real>, review: Reviewing)
    requires EvaluateWith(o, reviewers, fs, regs, dir, costToScale, review).0.Ok?
    requires RouteJob(o, reviewers, fs, dir, costToScale).value.strategy == "score"
    requires RouteJob(o, reviewers, fs, dir, costToScale).value.range.0
          <= RouteJob(o, reviewers, fs, dir, costToScale).value.range.1
    ensures var e := EvaluateWith(o, reviewers, fs, regs, dir, costToScale, review).0.value.0;
      e.confidenceRange.0 <= e.confidence <= e.confidenceRange.1
  {
    var rt := RouteJob(o, reviewers, fs, dir, costToScale).value;
    assert Strategy(o, fs, regs, dir, rt, review).0.Ok?;
  }

  /** The review strategy's confidence is a review's overall score, so it
      lies in [0, 1]. */
  lemma ReviewWithinUnit(c: ReviewApi.Context, fs: Fs, regs: ReviewApi.Registries, dir: Path, source: Config.Source)
    ensures ReviewOf(c, dir, source)(fs, regs).0.Ok? ==>
      0.0 <= ReviewOf(c, dir, source)(fs, regs).0.value.0.overallScore <= 1.0
  {
    if ReviewOf(c, dir, source)(fs, regs).0.Ok? {
      ReviewApi.ReviewJobScoreUnit(c, fs, regs, dir, source);
    }
  }

  /** A result written as `evaluate_result.json` reads back as itself. */
  lemma WrittenResultReadsBack(o: Oracles, fs: Fs, dir: Path, e: Results.EvaluateResult, fs': Fs)
    requires Manifest.CodecRoundTrips(o)
    requires WriteJson(o, fs, dir + [EvaluateResultFilename], Results.EvaluateResultJson(e)) == Ok(fs')
    ensures Read(fs', dir + [EvaluateResultFilename]).Ok?
    ensures o.loads(Read(fs', dir + [EvaluateResultFilename]).value) == Some(Results.EvaluateResultJson(e))
    ensures Results.EvaluateResultOfJson(Results.EvaluateResultJson(e)) == Some(e)
  {
    var text := o.dumps(Results.EvaluateResultJson(e)) + "\n";
    WriteThenRead(fs, dir + [EvaluateResultFilename], text, dir + [EvaluateResultFilename]);
    Results.EvaluateResultRoundTrip(e);
  }

  /** `evaluate_result.json` holds the result `evaluate_confidence` returns. */
  lemma EvaluateFileReadsBack(o: Oracles, reviewers: map<string, Methods.Reviewer>, fs: Fs, regs: ReviewApi.Registries,
                              dir: Path, costToScale: Option<real>, review: Reviewing)
    requires Manifest.CodecRoundTrips(o)
    requires EvaluateWith(o, reviewers, fs, regs, dir, costToScale, review).0.Ok?
    ensures var (e, fs') := EvaluateWith(o, reviewers, fs, regs, dir, costToScale, review).0.value;
      && Read(fs', dir + [EvaluateResultFilename]).Ok?
      && o.loads(Read(fs', dir + [EvaluateResultFilename]).value).Some?
      && Results.EvaluateResultOfJson(o.loads(Read(fs', dir + [EvaluateResultFilename]).value).value) == Some(e)
  {
    var rt := RouteJob(o, reviewers, fs, dir, costToScale).value;
    var scored := Strategy(o, fs, regs, dir, rt, review).0;
    var r := Finish(o, dir, rt, scored);
    WrittenResultReadsBack(o, scored.value.fs, dir, r.value.0, r.value.1);
  }

  /** Neither strategy writes `manifest.json`: given a review step that
      leaves it alone, the file reads after the job as it did before. */
  lemma ManifestUntouched(o: Oracles, reviewers: map<string, Methods.Reviewer>, fs: Fs, regs: ReviewApi.Registries,
                          dir: Path, costToScale: Option<real>, review: Reviewing)
    requires EvaluateWith(o, reviewers, fs, regs, dir, costToScale, review).0.Ok?
    requires review(fs, regs).0.Ok? ==>
      Read(review(fs, regs).0.value.1, Manifest.ManifestPath(dir)) == Read(fs, Manifest.ManifestPath(dir))
    ensures Read(EvaluateWith(o, reviewers, fs, regs, dir, costToScale, review).0.value.1, Manifest.ManifestPath(dir))
            == Read(fs, Manifest.ManifestPath(dir))
  {
    var mp := Manifest.ManifestPath(dir);
    var rt := RouteJob(o, reviewers, fs, dir, costToScale).value;
    var scored := Strategy(o, fs, regs, dir, rt, review).0;
    if rt.strategy == "score" {
      var sp := dir + [ScoreResultFilename];
      assert sp != mp by { assert sp[|dir|] != mp[|dir|]; }
      WriteThenRead(fs, sp, o.dumps(Scorer.ScoreResultJson(Scorer.ScoreConfidence(o, rt.id, rt.range))) + "\n", mp);
    }
    var r := Finish(o, dir, rt, scored);
    var ep := dir + [EvaluateResultFilename];
    assert ep != mp by { assert ep[|dir|] != mp[|dir|]; }
    WriteThenRead(scored.value.fs, ep, o.dumps(Results.EvaluateResultJson(r.value.0)) + "\n", mp);
  }

  /** `review` writes only `review_result.json`, so it leaves
      `manifest.json` alone. */
  lemma ReviewLeavesManifest(c: ReviewApi.Context, fs: Fs, regs: ReviewApi.Registries, dir: Path, source: Config.Source)
    requires ReviewOf(c, dir, source)(fs, regs).0.Ok?
    ensures Read(ReviewOf(c, dir, source)(fs, regs).0.value.1, Manifest.ManifestPath(dir))
            == Read(fs, Manifest.ManifestPath(dir))
  {
    var (res, fs') := ReviewApi.ReviewJob(c, fs, regs, dir, source).0.value;
    var mp := Manifest.ManifestPath(dir);
    assert ReviewApi.ResultPath(dir) != mp by { assert Name(mp) == Manifest.ManifestFilename; }
    WriteThenRead(fs, ReviewApi.ResultPath(dir), c.o.dumps(Results.ReviewResultJson(res)) + "\n", mp);
  }
}
