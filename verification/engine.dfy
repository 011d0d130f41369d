/** `ReviewEngine`: a backend and its call defaults, built from the review
    configuration, and one review of an artifact: render the prompt, call
    the backend, parse the reply into dimensions and an overall score.
 */
module Engine {
  import opened Wrappers
  import opened Json
  import opened Oracles
  import opened Models
  import opened Backends
  import opened Config
  import Files
  import Numbers
  import Render
  import Parser

  datatype Engine = Engine(
    backend: Backend,
    defaultModel: Option<string>,
    defaultTemperature: real,
    defaultMaxTokens: int)

  /** What `from_config` is given: a ready `ReviewConfig`, or a dict, a path
      or nothing for `load_config`. */
  datatype EngineSource = Given(config: ReviewConfig) | Load(source: Source)

  /** The call-site merge of `model=` with `**extra` names the function by
      module and qualified name; argument binding names it by qualified name. */
  const DuplicateModelMessage :=
    "impact_engine_evaluate.review.backends.base.BackendRegistry.create() got multiple values for keyword argument 'model'"
  const DuplicateNameMessage := "BackendRegistry.create() got multiple values for argument 'name'"

  /** `BackendRegistry.create(type, model=model, **extra)`: the keyword
      `model` and the spread `extra` must not both name `model`, and
      `extra` must not name the positional `name`. */
  function CreateBackend(factories: map<string, Factory>, b: BackendConfig): (r: Result<Backend>)
    ensures "model" in b.extra ==> r == Err(TypeError(DuplicateModelMessage))
    ensures "model" !in b.extra && "name" in b.extra ==> r == Err(TypeError(DuplicateNameMessage))
    ensures "model" !in b.extra && "name" !in b.extra ==>
      r == Create(factories, b.kind, b.extra["model" := JStr(b.model)])
  {
    if "model" in b.extra then Err(TypeError(DuplicateModelMessage))
    else if "name" in b.extra then Err(TypeError(DuplicateNameMessage))
    else Create(factories, b.kind, b.extra["model" := JStr(b.model)])
  }

  /** `ReviewEngine.from_config`. */
  function FromConfig(o: Oracles, fs: Files.Fs, env: map<string, string>, factories: map<string, Factory>,
                      source: EngineSource): (r: Result<Engine>)
    ensures source.Load? && LoadConfig(o, fs, env, source.source).Err? ==>
      r == LoadConfig(o, fs, env, source.source).PropagateFailure()
    ensures r.Ok? ==>
      var c := if source.Given? then source.config else LoadConfig(o, fs, env, source.source).value;
      && (source.Load? ==> LoadConfig(o, fs, env, source.source).Ok?)
      && CreateBackend(factories, c.backend) == Ok(r.value.backend)
      && r.value.defaultModel == Some(c.backend.model)
      && r.value.defaultTemperature == c.backend.temperature
      && r.value.defaultMaxTokens == c.backend.maxTokens
  {
    var c :- if source.Given? then Ok(source.config) else LoadConfig(o, fs, env, source.source);
    var backend :- CreateBackend(factories, c.backend);
    Ok(Engine(backend, Some(c.backend.model), c.backend.temperature, c.backend.maxTokens))
  }

  /** The template variables: the payload's four fields, overridden by any
      metadata key of the same name. */
  function Variables(a: ArtifactPayload, knowledge: string): (vars: map<string, Json>)
    ensures vars.Keys == {"artifact", "model_type", "sample_size", "knowledge_context"} + a.metadata.Keys
    ensures forall k :: k in a.metadata ==> vars[k] == a.metadata[k]
    ensures "artifact" !in a.metadata ==> vars["artifact"] == JStr(a.artifactText)
    ensures "model_type" !in a.metadata ==> vars["model_type"] == JStr(a.modelType)
    ensures "sample_size" !in a.metadata ==> vars["sample_size"] == JInt(a.sampleSize)
    ensures "knowledge_context" !in a.metadata ==> vars["knowledge_context"] == JStr(knowledge)
  {
    map["artifact" := JStr(a.artifactText), "model_type" := JStr(a.modelType),
        "sample_size" := JInt(a.sampleSize), "knowledge_context" := JStr(knowledge)] + a.metadata
  }

  /** Python's `x or y` on an optional string: `x` when it is a non-empty string. */
  function OrModel(x: Option<string>, y: Option<string>): (r: Option<string>)
    ensures x.Some? && x.value != "" ==> r == x
    ensures !(x.Some? && x.value != "") ==> r == y
  {
    if x.Some? && x.value != "" then x else y
  }

  /** The keyword arguments of the backend call: the per-call overrides,
      else the engine's defaults. A zero `max_tokens` counts as absent; a
      zero temperature does not. */
  function Args(e: Engine, model: Option<string>, temperature: Option<real>, maxTokens: Option<int>): (args: CallArgs)
    ensures args.model == OrModel(model, e.defaultModel)
    ensures temperature.Some? ==> args.temperature == temperature.value
    ensures temperature.None? ==> args.temperature == e.defaultTemperature
    ensures maxTokens.Some? && maxTokens.value != 0 ==> args.maxTokens == maxTokens.value
    ensures !(maxTokens.Some? && maxTokens.value != 0) ==> args.maxTokens == e.defaultMaxTokens
  {
    CallArgs(OrModel(model, e.defaultModel),
      if temperature.Some? then temperature.value else e.defaultTemperature,
      if maxTokens.Some? && maxTokens.value != 0 then maxTokens.value else e.defaultMaxTokens)
  }

  /** The model recorded in the result: the model the call used, or `""`. */
  function UsedModel(passed: Option<string>): (m: string)
    ensures passed.Some? ==> m == passed.value
    ensures passed.None? ==> m == ""
  {
    if passed.Some? then passed.value else ""
  }

  /** `ReviewEngine.review`, at the UTC time `now`. */
  function Review(e: Engine, o: Oracles, a: ArtifactPayload, spec: PromptSpec, knowledge: string,
                  model: Option<string>, temperature: Option<real>, maxTokens: Option<int>, now: string)
    : (r: Result<ReviewResult>)
    ensures Render.RenderMessages(o, spec, Variables(a, knowledge)).Err? ==>
      r == Err(Render.RenderMessages(o, spec, Variables(a, knowledge)).error)
    ensures Render.RenderMessages(o, spec, Variables(a, knowledge)).Ok? &&
            e.backend.complete(Render.RenderMessages(o, spec, Variables(a, knowledge)).value,
                               Args(e, model, temperature, maxTokens)).Err? ==>
      r == Err(e.backend.complete(Render.RenderMessages(o, spec, Variables(a, knowledge)).value,
                                  Args(e, model, temperature, maxTokens)).error)
    ensures r.Ok? ==>
      var res := r.value;
      && Render.RenderMessages(o, spec, Variables(a, knowledge)).Ok?
      && e.backend.complete(Render.RenderMessages(o, spec, Variables(a, knowledge)).value,
                            Args(e, model, temperature, maxTokens)) == Ok(res.rawResponse)
      && Parser.ParseDimensions(o, res.rawResponse) == Ok(res.dimensions)
      && res.overallScore == Parser.ParseOverall(res.rawResponse, res.dimensions)
      && Parser.UnitScores(res.dimensions) && 0.0 <= res.overallScore <= 1.0
      && res.initiativeId == a.initiativeId
      && res.promptName == spec.name && res.promptVersion == spec.version
      && res.backendName == e.backend.name
      && res.model == UsedModel(OrModel(model, e.defaultModel))
      && res.timestamp == now
  {
    var messages :- Render.RenderMessages(o, spec, Variables(a, knowledge));
    var args := Args(e, model, temperature, maxTokens);
    var raw :- e.backend.complete(messages, args);
    var dims :- Parser.ParseDimensions(o, raw);
    var overall := Parser.ParseOverall(raw, dims);
    Ok(ReviewResult(a.initiativeId, spec.name, spec.version, e.backend.name,
      UsedModel(args.model), dims, overall, raw, now))
  }

  // ---------------------------------------------------------------------
  // Properties
  // ---------------------------------------------------------------------

  /** A backend configured with `model` in `extra` is never built. */
  lemma ModelInExtraRejected(o: Oracles, fs: Files.Fs, env: map<string, string>, factories: map<string, Factory>,
                             c: ReviewConfig)
    requires "model" in c.backend.extra
    ensures FromConfig(o, fs, env, factories, Given(c)) == Err(TypeError(DuplicateModelMessage))
  {
  }

  /** With nothing configured and the Anthropic package present, the engine
      wraps the Anthropic backend on the default model, and a call that
      overrides nothing asks for that model with 4096 tokens. */
  lemma DefaultEngine(o: Oracles, fs: Files.Fs, client: AnthropicClient, openai: Factory, litellm: Factory)
    ensures var r := FromConfig(o, fs, map[], AutoRegistered(Some(client), openai, litellm), Load(NoSource));
      && r.Ok? && r.value.backend.name == AnthropicName
      && r.value.defaultModel == Some(DefaultModel)
      && Args(r.value, None, None, None) == CallArgs(Some(DefaultModel), 0.0, 4096)
  {
    DefaultsWithoutSource(o, fs);
    var kwargs := map[]["model" := JStr(DefaultModel)];
    assert kwargs.Keys == {"model"};
    assert SettingsOf(kwargs).Ok?;
  }

  /** Once the backend has replied and the reply has been read, the review
      carries that reply, its dimensions and its overall score. */
  lemma ReviewOfReply(e: Engine, o: Oracles, a: ArtifactPayload, spec: PromptSpec, knowledge: string,
                      model: Option<string>, temperature: Option<real>, maxTokens: Option<int>,
                      now: string, reply: string, ds: seq<ReviewDimension>, overall: real)
    requires Render.RenderMessages(o, spec, Variables(a, knowledge)).Ok?
    requires e.backend.complete(Render.RenderMessages(o, spec, Variables(a, knowledge)).value,
                                Args(e, model, temperature, maxTokens)) == Ok(reply)
    requires Parser.ParseDimensions(o, reply) == Ok(ds) && Parser.ParseOverall(reply, ds) == overall
    ensures var r := Review(e, o, a, spec, knowledge, model, temperature, maxTokens, now);
      r.Ok? && r.value.rawResponse == reply && r.value.dimensions == ds && r.value.overallScore == overall
  {
  }

  /** A reply the pattern finds nothing in and `json.loads` rejects gives a
      review with no dimensions and an overall score of zero. */
  lemma ReviewOfUnreadableReply(e: Engine, o: Oracles, a: ArtifactPayload, spec: PromptSpec, knowledge: string,
                                model: Option<string>, temperature: Option<real>, maxTokens: Option<int>,
                                now: string, reply: string)
    requires Render.RenderMessages(o, spec, Variables(a, knowledge)).Ok?
    requires e.backend.complete(Render.RenderMessages(o, spec, Variables(a, knowledge)).value,
                                Args(e, model, temperature, maxTokens)) == Ok(reply)
    requires Parser.Scan(reply) == [] && o.loads(reply).None? && 'O' !in reply
    ensures var r := Review(e, o, a, spec, knowledge, model, temperature, maxTokens, now);
      r.Ok? && r.value.dimensions == [] && r.value.overallScore == 0.0 && r.value.rawResponse == reply
  {
    Parser.NoOverallLine(reply, []);
    ReviewOfReply(e, o, a, spec, knowledge, model, temperature, maxTokens, now, reply, [], 0.0);
  }
}
