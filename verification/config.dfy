/** `load_config`: the review subsystem's backend settings, read from an
    inline dict, a YAML file or nothing, with `REVIEW_BACKEND_*`
    environment variables taking precedence over both.
 */
module Config {
  import opened Wrappers
  import opened Json
  import opened Files
  import opened Oracles

  datatype BackendConfig = BackendConfig(
    kind: string,          // `type`
    model: string,
    temperature: real,
    maxTokens: int,
    extra: map<string, Json>)

  datatype ReviewConfig = ReviewConfig(backend: BackendConfig)

  const DefaultType := "anthropic"
  const DefaultModel := "claude-sonnet-4-5-20250929"
  const DefaultTemperature := 0.0
  const DefaultMaxTokens := 4096

  /** The dataclass defaults. */
  const DefaultBackend := BackendConfig(DefaultType, DefaultModel, DefaultTemperature, DefaultMaxTokens, map[])

  /** The keys of the `backend` section that become named fields. */
  const NamedBackendKeys: set<string> := {"type", "model", "temperature", "max_tokens"}

  /** What `load_config` is given. */
  datatype Source = DictSource(d: map<string, Json>) | PathSource(p: Path) | NoSource

  const ImportMessage := "PyYAML is required to load YAML config files: pip install pyyaml"

  /** `yaml.safe_load(fh) or {}` in `config._load_yaml`. */
  function LoadYamlFile(o: Oracles, fs: Fs, p: Path): (r: Result<Json>)
    ensures o.pyYaml.None? ==> r == Err(ImportError(ImportMessage))
    ensures r.Ok? ==> Truthy(r.value) || r.value == JObj(map[])
  {
    match o.pyYaml
    case None => Err(ImportError(ImportMessage))
    case Some(load) =>
      var text :- Read(fs, p);
      var v :- load(text);
      Ok(if Truthy(v) then v else JObj(map[]))
  }

  /** The `raw` mapping: the dict itself, the YAML file's content when the
      path names a file, and `{}` otherwise. A top-level YAML value that is
      not a mapping fails at the first `.get`. */
  function RawConfig(o: Oracles, fs: Fs, source: Source): (r: Result<map<string, Json>>)
    ensures source.DictSource? ==> r == Ok(source.d)
    ensures source.NoSource? ==> r == Ok(map[])
    ensures source.PathSource? && !IsFile(fs, source.p) ==> r == Ok(map[])
  {
    match source
    case DictSource(d) => Ok(d)
    case NoSource => Ok(map[])
    case PathSource(p) =>
      if !IsFile(fs, p) then Ok(map[])
      else
        var v :- LoadYamlFile(o, fs, p);
        if v.JObj? then Ok(v.fields)
        else Err(AttributeError("'" + TypeName(v) + "' object has no attribute 'get'"))
  }

  /** `os.environ.get(var, fallback)`: the variable's text wins. */
  function EnvOr(env: map<string, string>, name: string, fallback: Json): (v: Json)
    ensures name in env ==> v == JStr(env[name])
    ensures name !in env ==> v == fallback
  {
    if name in env then JStr(env[name]) else fallback
  }

  /** The `BackendConfig` built from `raw` and the environment. Fields are
      computed in the order `type`, `model`, `temperature`, `max_tokens`. */
  function ConfigOf(raw: map<string, Json>, env: map<string, string>): (r: Result<ReviewConfig>)
    ensures "backend" in raw && !raw["backend"].JObj? ==> r.Err? && r.error.AttributeError?
    ensures r.Ok? ==>
      var b := Get(raw, "backend", JObj(map[])).fields;
      var c := r.value.backend;
      && JStr(c.kind) == EnvOr(env, "REVIEW_BACKEND_TYPE", Get(b, "type", JStr(DefaultType)))
      && JStr(c.model) == EnvOr(env, "REVIEW_BACKEND_MODEL", Get(b, "model", JStr(DefaultModel)))
      && PyFloat(EnvOr(env, "REVIEW_BACKEND_TEMPERATURE", Get(b, "temperature", JFloat(DefaultTemperature)))) == Ok(c.temperature)
      && PyInt(EnvOr(env, "REVIEW_BACKEND_MAX_TOKENS", Get(b, "max_tokens", JInt(DefaultMaxTokens)))) == Ok(c.maxTokens)
      && c.extra.Keys == b.Keys - NamedBackendKeys
      && (forall k :: k in c.extra ==> c.extra[k] == b[k])
  {
    var backendRaw := Get(raw, "backend", JObj(map[]));
    if !backendRaw.JObj? then Err(AttributeError("'" + TypeName(backendRaw) + "' object has no attribute 'get'"))
    else
      var b := backendRaw.fields;
      var kind :- TextOf(EnvOr(env, "REVIEW_BACKEND_TYPE", Get(b, "type", JStr(DefaultType))), "type");
      var model :- TextOf(EnvOr(env, "REVIEW_BACKEND_MODEL", Get(b, "model", JStr(DefaultModel))), "model");
      var temperature :- PyFloat(EnvOr(env, "REVIEW_BACKEND_TEMPERATURE", Get(b, "temperature", JFloat(DefaultTemperature))));
      var maxTokens :- PyInt(EnvOr(env, "REVIEW_BACKEND_MAX_TOKENS", Get(b, "max_tokens", JInt(DefaultMaxTokens))));
      Ok(ReviewConfig(BackendConfig(kind, model, temperature, maxTokens,
        map k | k in b && k !in NamedBackendKeys :: b[k])))
  }

  /** `load_config(source)` under the environment `env`. */
  function LoadConfig(o: Oracles, fs: Fs, env: map<string, string>, source: Source): (r: Result<ReviewConfig>)
    ensures RawConfig(o, fs, source).Err? ==> r == RawConfig(o, fs, source).PropagateFailure()
  {
    var raw :- RawConfig(o, fs, source);
    ConfigOf(raw, env)
  }

  /** With nothing configured the dataclass defaults come out. */
  lemma DefaultsWithoutSource(o: Oracles, fs: Fs)
    ensures LoadConfig(o, fs, map[], NoSource) == Ok(ReviewConfig(DefaultBackend))
  {
    var r := ConfigOf(map[], map[]);
    assert r.Ok?;
  }

  /** An environment variable overrides whatever the source says. */
  lemma EnvironmentWins(env: map<string, string>, source: map<string, Json>, m: string)
    requires ConfigOf(source, env["REVIEW_BACKEND_MODEL" := m]).Ok?
    ensures ConfigOf(source, env["REVIEW_BACKEND_MODEL" := m]).value.backend.model == m
  {
  }

  /** Every setting the `backend` section names, and only those beyond the
      four fields, reaches `extra` unchanged. */
  lemma ExtraKeepsTheRest(raw: map<string, Json>, env: map<string, string>, k: string)
    requires ConfigOf(raw, env).Ok? && "backend" in raw
    requires k in raw["backend"].fields && k !in NamedBackendKeys
    ensures k in ConfigOf(raw, env).value.backend.extra
    ensures ConfigOf(raw, env).value.backend.extra[k] == raw["backend"].fields[k]
  {
  }
}
