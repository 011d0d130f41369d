/** The review stage's public entry points: `compute_review`, which reviews
    a job directory, and `review`, which also writes `review_result.json`
    back into it. The prompt and the knowledge base come from the
    registries when the configuration's `methods` section names them, and
    from the method reviewer's own directories otherwise.
 */
module ReviewApi {
  import opened Wrappers
  import opened Text
  import opened Json
  import opened Files
  import opened Oracles
  import opened Models
  import Config
  import Manifest
  import Methods
  import Prompts
  import Knowledge
  import LazyRegistry
  import Backends
  import Engine
  import Results
  import Parser

  const ReviewResultFilename := "review_result.json"

  /** `MethodReviewer.load_artifact(manifest, job_dir)`, which no reviewer
      shown here implements: the loader is part of the environment. */
  type ArtifactLoader = (Methods.Reviewer, Manifest.Manifest, Path) -> Result<ArtifactPayload>

  /** Everything a review reads besides the file system and the registries. */
  datatype Context = Context(
    o: Oracles,
    env: map<string, string>,
    backends: map<string, Backends.Factory>,
    reviewers: map<string, Methods.Reviewer>,
    loadArtifact: ArtifactLoader,
    /** `datetime.now(timezone.utc).isoformat()`. */
    now: string)

  /** The two module-level registries a review may read, and so fill. */
  datatype Registries = Registries(prompts: LazyRegistry.State, knowledgeBases: LazyRegistry.State)

  /** What `compute_review` has in hand before it consults the `methods`
      section. */
  datatype Prepared = Prepared(
    raw: map<string, Json>,
    config: Config.ReviewConfig,
    manifest: Manifest.Manifest,
    reviewer: Methods.Reviewer,
    artifact: ArtifactPayload)

  /** The first three steps: the raw configuration, the configuration read
      from it and the job's manifest. */
  function Loaded(c: Context, fs: Fs, dir: Path, source: Config.Source)
    : (r: Result<(map<string, Json>, Config.ReviewConfig, Manifest.Manifest)>)
    ensures Config.LoadConfig(c.o, fs, c.env, source).Err? ==>
      r == Config.LoadConfig(c.o, fs, c.env, source).PropagateFailure()
    ensures Config.LoadConfig(c.o, fs, c.env, source).Ok? && Manifest.LoadManifest(c.o, fs, dir).Err? ==>
      r == Manifest.LoadManifest(c.o, fs, dir).PropagateFailure()
    ensures r.Ok? <==> Config.LoadConfig(c.o, fs, c.env, source).Ok? && Manifest.LoadManifest(c.o, fs, dir).Ok?
    ensures r.Ok? ==>
      && Config.RawConfig(c.o, fs, source) == Ok(r.value.0)
      && Config.LoadConfig(c.o, fs, c.env, source) == Ok(r.value.1)
      && Manifest.LoadManifest(c.o, fs, dir) == Ok(r.value.2)
  {
    var raw :- Config.RawConfig(c.o, fs, source);
    var config :- Config.ConfigOf(raw, c.env);
    var manifest :- Manifest.LoadManifest(c.o, fs, dir);
    Ok((raw, config, manifest))
  }

  /** The first four steps: the configuration, the manifest, the method
      reviewer for its `model_type`, and the artifact that reviewer loads. */
  function Prepare(c: Context, fs: Fs, dir: Path, source: Config.Source): (r: Result<Prepared>)
    ensures Config.LoadConfig(c.o, fs, c.env, source).Err? ==>
      r == Config.LoadConfig(c.o, fs, c.env, source).PropagateFailure()
    ensures Config.LoadConfig(c.o, fs, c.env, source).Ok? && Manifest.LoadManifest(c.o, fs, dir).Err? ==>
      r == Manifest.LoadManifest(c.o, fs, dir).PropagateFailure()
    ensures r.Ok? ==>
      && Config.RawConfig(c.o, fs, source) == Ok(r.value.raw)
      && Config.LoadConfig(c.o, fs, c.env, source) == Ok(r.value.config)
      && Manifest.LoadManifest(c.o, fs, dir) == Ok(r.value.manifest)
      && r.value.manifest.modelType in c.reviewers
      && r.value.reviewer == c.reviewers[r.value.manifest.modelType]
      && c.loadArtifact(r.value.reviewer, r.value.manifest, dir) == Ok(r.value.artifact)
  {
    var (raw, config, manifest) :- Loaded(c, fs, dir, source);
    var reviewer :- Methods.Create(c.reviewers, manifest.modelType);
    var artifact :- c.loadArtifact(reviewer, manifest, dir);
    Ok(Prepared(raw, config, manifest, reviewer, artifact))
  }

  /** `compute_review`'s instantiation of the reviewer as written, with the
      registry's `create` as written. */
  function PrepareAsWritten(c: Context, fs: Fs, dir: Path, source: Config.Source): (r: Result<Prepared>)
    ensures Loaded(c, fs, dir, source).Err? ==> r == Loaded(c, fs, dir, source).PropagateFailure()
    ensures Loaded(c, fs, dir, source).Ok? ==>
      var modelType := Loaded(c, fs, dir, source).value.2.modelType;
      Methods.CreateAsWritten(c.reviewers, modelType).Err? ==>
      r == Methods.CreateAsWritten(c.reviewers, modelType).PropagateFailure()
    ensures r.Ok? ==> r == Prepare(c, fs, dir, source)
  {
    var (raw, config, manifest) :- Loaded(c, fs, dir, source);
    var reviewer :- Methods.CreateAsWritten(c.reviewers, manifest.modelType);
    var artifact :- c.loadArtifact(reviewer, manifest, dir);
    Ok(Prepared(raw, config, manifest, reviewer, artifact))
  }

  /** With the built-in registry, as written no job gets past instantiating
      its reviewer: the artifact is never loaded and no review is computed. */
  lemma PrepareAsWrittenFails(c: Context, fs: Fs, dir: Path, source: Config.Source)
    requires c.reviewers == Methods.WithQuasiExperimental(Methods.Builtins)
    ensures PrepareAsWritten(c, fs, dir, source).Err?
    ensures Loaded(c, fs, dir, source).Ok? ==>
      var modelType := Loaded(c, fs, dir, source).value.2.modelType;
      modelType in c.reviewers ==>
      PrepareAsWritten(c, fs, dir, source) == Err(TypeError(Methods.AbstractMessage(c.reviewers[modelType].className)))
  {
    Methods.BuiltinsNotInstantiable(c.reviewers, "");
    PrepareAsWrittenAbstract(c, fs, dir, source);
  }

  /** When no registered reviewer defines `load_artifact`, as written every
      job fails before its artifact is loaded. */
  lemma PrepareAsWrittenAbstract(c: Context, fs: Fs, dir: Path, source: Config.Source)
    requires forall k :: k in c.reviewers ==> !c.reviewers[k].definesLoad
    ensures PrepareAsWritten(c, fs, dir, source).Err?
    ensures Loaded(c, fs, dir, source).Ok? ==>
      var modelType := Loaded(c, fs, dir, source).value.2.modelType;
      modelType in c.reviewers ==>
      PrepareAsWritten(c, fs, dir, source) == Err(TypeError(Methods.AbstractMessage(c.reviewers[modelType].className)))
  {
    var l := Loaded(c, fs, dir, source);
    var r := PrepareAsWritten(c, fs, dir, source);
    if l.Ok? {
      var modelType := l.value.2.modelType;
      var e := Methods.CreateAsWritten(c.reviewers, modelType);
      assert e.Err?;
      assert r == e.PropagateFailure();
      assert r == Err(e.error);
    } else {
      assert r == l.PropagateFailure();
    }
  }

  const ConfigGetMessage := "'ReviewConfig' object has no attribute 'get'"

  /** `compute_review` as written: the `methods` lookup calls `.get` on the
      `ReviewConfig` that `load_config` returns, which has no such method. */
  function ComputeReviewAsWritten(c: Context, fs: Fs, dir: Path, source: Config.Source): (r: Result<ReviewResult>)
    ensures r.Err?
    ensures Prepare(c, fs, dir, source).Err? ==> r == Prepare(c, fs, dir, source).PropagateFailure()
    ensures Prepare(c, fs, dir, source).Ok? ==> r == Err(AttributeError(ConfigGetMessage))
  {
    var p :- Prepare(c, fs, dir, source);
    Err(AttributeError(ConfigGetMessage))
  }

  /** `config.get("methods", {}).get(model_type, {})` on the configuration
      mapping: a section that is not a mapping fails at the next `.get`. */
  function MethodSection(raw: map<string, Json>, modelType: string): (r: Result<map<string, Json>>)
    ensures "methods" !in raw ==> r == Ok(map[])
    ensures "methods" in raw && !raw["methods"].JObj? ==> r == Err(AttributeError(NoGetMessage(raw["methods"])))
    ensures "methods" in raw && raw["methods"].JObj? && modelType !in raw["methods"].fields ==> r == Ok(map[])
    ensures r.Ok? && r.value != map[] ==>
      "methods" in raw && raw["methods"].JObj? && modelType in raw["methods"].fields
      && raw["methods"].fields[modelType] == JObj(r.value)
  {
    var methods := Get(raw, "methods", JObj(map[]));
    if !methods.JObj? then Err(AttributeError(NoGetMessage(methods)))
    else
      var m := Get(methods.fields, modelType, JObj(map[]));
      if !m.JObj? then Err(AttributeError(NoGetMessage(m))) else Ok(m.fields)
  }

  /** `method.get(key, "")` used as a registry name: `None` when it is falsy,
      the name when it is a non-empty string. */
  function NamedIn(m: map<string, Json>, key: string): (r: Result<Option<string>>)
    ensures r == Ok(None) <==> !Truthy(Get(m, key, JStr("")))
    ensures r.Ok? && r.value.Some? ==> key in m && m[key] == JStr(r.value.value) && r.value.value != ""
  {
    var v := Get(m, key, JStr(""));
    if !Truthy(v) then Ok(None)
    else if v.JStr? then Ok(Some(v.s))
    else Err(Unsupported("non-string registry name for " + key))
  }

  function NoTemplateDirMessage(reviewer: Methods.Reviewer): string
  {
    "Method " + Repr(reviewer.name) + " does not provide a prompt template directory"
  }

  /** The reviewer's default prompt file, `<template dir>/<prompt name>.yaml`. */
  function TemplatePath(dir: Path, reviewer: Methods.Reviewer): (p: Path)
    ensures Parent(p) == dir && Name(p) == reviewer.promptName + ".yaml"
  {
    dir + [reviewer.promptName + ".yaml"]
  }

  /** The prompt: the registry's when the section names one, else the
      reviewer's template file. Only the registry read fills the registry. */
  function PromptFor(o: Oracles, fs: Fs, st: LazyRegistry.State, reviewer: Methods.Reviewer,
                     section: map<string, Json>): (r: (Result<PromptSpec>, LazyRegistry.State))
    ensures NamedIn(section, "prompt").Err? ==> r == (NamedIn(section, "prompt").PropagateFailure(), st)
    ensures NamedIn(section, "prompt") == Ok(None) && reviewer.templateDir.None? ==>
      r == (Err(FileNotFound(NoTemplateDirMessage(reviewer))), st)
    ensures NamedIn(section, "prompt") == Ok(None) && reviewer.templateDir.Some? ==>
      r == (Prompts.LoadPromptSpec(o, fs, TemplatePath(reviewer.templateDir.value, reviewer)), st)
    ensures NamedIn(section, "prompt").Ok? && NamedIn(section, "prompt").value.Some? ==>
      r == LazyRegistry.LoadPrompt(o, fs, st, NamedIn(section, "prompt").value.value)
    ensures r.1 == st || r.1 == LazyRegistry.EnsureDefaults(st, LazyRegistry.PromptDefaults)
  {
    match NamedIn(section, "prompt")
    case Err(e) => (Err(e), st)
    case Ok(Some(name)) => LazyRegistry.LoadPrompt(o, fs, st, name)
    case Ok(None) =>
      match reviewer.templateDir
      case None => (Err(FileNotFound(NoTemplateDirMessage(reviewer))), st)
      case Some(dir) => (Prompts.LoadPromptSpec(o, fs, TemplatePath(dir, reviewer)), st)
  }

  /** The knowledge text: the registry's when the section names a knowledge
      base, else the reviewer's knowledge directory, else nothing. */
  function KnowledgeFor(fs: Fs, st: LazyRegistry.State, reviewer: Methods.Reviewer,
                        section: map<string, Json>): (r: (Result<string>, LazyRegistry.State))
    ensures NamedIn(section, "knowledge_base").Err? ==> r == (NamedIn(section, "knowledge_base").PropagateFailure(), st)
    ensures NamedIn(section, "knowledge_base") == Ok(None) && reviewer.knowledgeDir.None? ==> r == (Ok(""), st)
    ensures NamedIn(section, "knowledge_base") == Ok(None) && reviewer.knowledgeDir.Some? ==>
      r == (Ok(Knowledge.LoadKnowledge(fs, reviewer.knowledgeDir.value)), st)
    ensures NamedIn(section, "knowledge_base").Ok? && NamedIn(section, "knowledge_base").value.Some? ==>
      r == LazyRegistry.LoadKnowledgeBase(fs, st, NamedIn(section, "knowledge_base").value.value)
    ensures r.1 == st || r.1 == LazyRegistry.EnsureDefaults(st, LazyRegistry.KnowledgeDefaults)
  {
    match NamedIn(section, "knowledge_base")
    case Err(e) => (Err(e), st)
    case Ok(Some(name)) => LazyRegistry.LoadKnowledgeBase(fs, st, name)
    case Ok(None) =>
      (Ok(if reviewer.knowledgeDir.Some? then Knowledge.LoadKnowledge(fs, reviewer.knowledgeDir.value) else ""), st)
  }

  /** The steps after preparation: the `methods` section, the prompt, the
      knowledge, the engine built from the loaded configuration, and the
      review itself with no per-call overrides. */
  function ReviewPrepared(c: Context, fs: Fs, regs: Registries, p: Prepared): (r: (Result<ReviewResult>, Registries))
    ensures r.1.prompts == regs.prompts || r.1.prompts == LazyRegistry.EnsureDefaults(regs.prompts, LazyRegistry.PromptDefaults)
    ensures r.1.knowledgeBases == regs.knowledgeBases ||
            r.1.knowledgeBases == LazyRegistry.EnsureDefaults(regs.knowledgeBases, LazyRegistry.KnowledgeDefaults)
    ensures r.0.Ok? ==>
      && r.0.value.initiativeId == p.artifact.initiativeId
      && r.0.value.timestamp == c.now
      && Parser.UnitScores(r.0.value.dimensions) && 0.0 <= r.0.value.overallScore <= 1.0
  {
    match MethodSection(p.raw, p.manifest.modelType)
    case Err(e) => (Err(e), regs)
    case Ok(section) =>
      var (spec, prompts) := PromptFor(c.o, fs, regs.prompts, p.reviewer, section);
      match spec
      case Err(e) => (Err(e), Registries(prompts, regs.knowledgeBases))
      case Ok(spec) =>
        var (knowledge, kbs) := KnowledgeFor(fs, regs.knowledgeBases, p.reviewer, section);
        var regs' := Registries(prompts, kbs);
        match knowledge
        case Err(e) => (Err(e), regs')
        case Ok(knowledge) =>
          match Engine.FromConfig(c.o, fs, c.env, c.backends, Engine.Given(p.config))
          case Err(e) => (Err(e), regs')
          case Ok(engine) => (Engine.Review(engine, c.o, p.artifact, spec, knowledge, None, None, None, c.now), regs')
  }

  /** `compute_review(job_dir, config=source)`, with the `methods` section
      read from the configuration mapping as its documentation describes. */
  function ComputeReview(c: Context, fs: Fs, regs: Registries, dir: Path, source: Config.Source)
    : (r: (Result<ReviewResult>, Registries))
    ensures Prepare(c, fs, dir, source).Err? ==> r == (Prepare(c, fs, dir, source).PropagateFailure(), regs)
    ensures Prepare(c, fs, dir, source).Ok? ==> r == ReviewPrepared(c, fs, regs, Prepare(c, fs, dir, source).value)
    ensures r.0.Ok? ==>
      Prepare(c, fs, dir, source).Ok? &&
      r.0.value.initiativeId == Prepare(c, fs, dir, source).value.artifact.initiativeId
  {
    match Prepare(c, fs, dir, source)
    case Err(e) => (Err(e), regs)
    case Ok(p) => ReviewPrepared(c, fs, regs, p)
  }

  function ResultPath(dir: Path): (p: Path)
    ensures Parent(p) == dir && Name(p) == ReviewResultFilename
  {
    dir + [ReviewResultFilename]
  }

  /** `review(job_dir, config=source)`: the review, and the file system with
      `review_result.json` written. */
  function ReviewJob(c: Context, fs: Fs, regs: Registries, dir: Path, source: Config.Source)
    : (r: (Result<(ReviewResult, Fs)>, Registries))
    ensures r.1 == ComputeReview(c, fs, regs, dir, source).1
    ensures ComputeReview(c, fs, regs, dir, source).0.Err? ==>
      r.0 == ComputeReview(c, fs, regs, dir, source).0.PropagateFailure()
    ensures r.0.Ok? ==>
      && ComputeReview(c, fs, regs, dir, source).0 == Ok(r.0.value.0)
      && Write(fs, ResultPath(dir), c.o.dumps(Results.ReviewResultJson(r.0.value.0)) + "\n") == Ok(r.0.value.1)
  {
    var (result, regs') := ComputeReview(c, fs, regs, dir, source);
    match result
    case Err(e) => (Err(e), regs')
    case Ok(res) =>
      match Write(fs, ResultPath(dir), c.o.dumps(Results.ReviewResultJson(res)) + "\n")
      case Err(e) => (Err(e), regs')
      case Ok(fs') => (Ok((res, fs')), regs')
  }

  // ---------------------------------------------------------------------
  // Properties
  // ---------------------------------------------------------------------

  /** `compute_review` as written never produces a review: every job it
      could review fails instead with the `AttributeError`. */
  lemma AsWrittenNeverReviews(c: Context, fs: Fs, regs: Registries, dir: Path, source: Config.Source)
    requires ComputeReview(c, fs, regs, dir, source).0.Ok?
    ensures ComputeReviewAsWritten(c, fs, dir, source) == Err(AttributeError(ConfigGetMessage))
  {
  }

  /** Without a `methods` section neither registry is read, so neither is
      filled: the prompt comes from the reviewer's template directory. */
  lemma NoMethodsLeavesRegistries(c: Context, fs: Fs, regs: Registries, p: Prepared)
    requires "methods" !in p.raw
    ensures ReviewPrepared(c, fs, regs, p).1 == regs
  {
    assert MethodSection(p.raw, p.manifest.modelType) == Ok(map[]);
    assert NamedIn(map[], "prompt") == Ok(None);
    assert NamedIn(map[], "knowledge_base") == Ok(None);
  }

  /** A review that `review` completes has an overall score in [0, 1]. */
  lemma ReviewJobScoreUnit(c: Context, fs: Fs, regs: Registries, dir: Path, source: Config.Source)
    requires ReviewJob(c, fs, regs, dir, source).0.Ok?
    ensures 0.0 <= ReviewJob(c, fs, regs, dir, source).0.value.0.overallScore <= 1.0
  {
    var p := Prepare(c, fs, dir, source).value;
    assert ComputeReview(c, fs, regs, dir, source) == ReviewPrepared(c, fs, regs, p);
  }

  /** The file `review` leaves behind holds the result it returns: reading it
      gives the JSON text, which decodes to that result, and no other file
      changes. */
  lemma ReviewFileReadsBack(c: Context, fs: Fs, regs: Registries, dir: Path, source: Config.Source, q: Path)
    requires Manifest.CodecRoundTrips(c.o)
    requires ReviewJob(c, fs, regs, dir, source).0.Ok?
    ensures var (res, fs') := ReviewJob(c, fs, regs, dir, source).0.value;
      && Read(fs', ResultPath(dir)).Ok?
      && c.o.loads(Read(fs', ResultPath(dir)).value).Some?
      && Results.ReviewResultOfJson(c.o.loads(Read(fs', ResultPath(dir)).value).value) == Some(res)
      && (q != ResultPath(dir) ==> Read(fs', q) == Read(fs, q))
  {
    var (res, fs') := ReviewJob(c, fs, regs, dir, source).0.value;
    var text := c.o.dumps(Results.ReviewResultJson(res)) + "\n";
    WriteThenRead(fs, ResultPath(dir), text, ResultPath(dir));
    WriteThenRead(fs, ResultPath(dir), text, q);
    assert c.o.loads(text) == Some(Results.ReviewResultJson(res));
    Results.ReviewResultRoundTrip(res);
  }
}
