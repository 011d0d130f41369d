/** Prompt specs: reading one from a YAML file (`load_prompt_spec` and the
    registry's `_spec_from_dict`), and the `PromptRegistry` that scans
    directories of `*.yaml` files and keeps the specs by name.
 */
module Prompts {
  import opened Wrappers
  import opened Text
  import opened Json
  import opened Files
  import opened Oracles
  import opened Models
  import opened Sorting
  import MiniYaml
  import Registry

  /** `_load_yaml`: PyYAML's value, `{}` for a falsy one, or the minimal
      loader's mapping when PyYAML is missing. */
  function LoadYaml(o: Oracles, fs: Fs, p: Path, start: MiniYaml.State): (r: Result<Json>)
    ensures !IsFile(fs, p) ==> r.Err?
    ensures IsFile(fs, p) && o.pyYaml.None? ==>
      r == (match MiniYaml.Load(start, Read(fs, p).value) case Ok(m) => Ok(JObj(m)) case Err(e) => Err(e))
    ensures r.Ok? && o.pyYaml.Some? ==> Truthy(r.value) || r.value == JObj(map[])
  {
    var text :- Read(fs, p);
    match o.pyYaml
    case Some(load) =>
      var v :- load(text);
      Ok(if Truthy(v) then v else JObj(map[]))
    case None =>
      var m :- MiniYaml.Load(start, text);
      Ok(JObj(m))
  }

  /** A `str` value under `key`, or `default` when the key is absent. */
  function TextOr(d: map<string, Json>, key: string, default: string): (r: Result<string>)
    ensures key !in d ==> r == Ok(default)
    ensures key in d && d[key].JStr? ==> r == Ok(d[key].s)
    ensures key in d && !d[key].JStr? ==> r.Err? && r.error.Unsupported?
  {
    match Get(d, key, JStr(default))
    case JStr(s) => Ok(s)
    case _ => Err(Unsupported("a non-string " + Repr(key) + " in a prompt spec"))
  }

  function StripAll(parts: seq<string>): (r: seq<string>)
    ensures |r| == |parts|
    ensures forall i :: 0 <= i < |r| ==> r[i] == Strip(parts[i])
  {
    if parts == [] then [] else [Strip(parts[0])] + StripAll(parts[1..])
  }

  predicate AllText(items: seq<Json>)
  {
    forall i :: 0 <= i < |items| ==> items[i].JStr?
  }

  function Texts(items: seq<Json>): (r: seq<string>)
    requires AllText(items)
    ensures |r| == |items|
    ensures forall i :: 0 <= i < |r| ==> items[i] == JStr(r[i])
  {
    if items == [] then [] else [items[0].s] + Texts(items[1..])
  }

  /** The `dimensions` entry: a comma-separated string is split and each
      piece stripped; a list of strings is taken as is. */
  function DimensionsOf(d: map<string, Json>): (r: Result<seq<string>>)
    ensures "dimensions" !in d ==> r == Ok([])
    ensures "dimensions" in d && d["dimensions"].JStr? ==> r == Ok(StripAll(SplitOn(d["dimensions"].s, ',')))
    ensures "dimensions" in d && d["dimensions"].JArr? && AllText(d["dimensions"].items) ==>
      r == Ok(Texts(d["dimensions"].items))
  {
    match Get(d, "dimensions", JArr([]))
    case JStr(s) => Ok(StripAll(SplitOn(s, ',')))
    case JArr(items) =>
      if AllText(items) then Ok(Texts(items))
      else Err(Unsupported("prompt dimensions that are not strings"))
    case _ => Err(Unsupported("prompt dimensions that are not a list"))
  }

  /** `_spec_from_dict`, the same construction `load_prompt_spec` does. */
  function SpecFromDict(repr: Json -> string, data: Json): (r: Result<PromptSpec>)
    ensures !data.JObj? ==> r == Err(AttributeError(NoGetMessage(data)))
    ensures r.Ok? ==> data.JObj? && DimensionsOf(data.fields) == Ok(r.value.dimensions)
    ensures r.Ok? ==> var d := data.fields;
      && TextOr(d, "name", "unknown") == Ok(r.value.name)
      && r.value.version == PyStr(repr, Get(d, "version", JStr("0.0")))
      && TextOr(d, "description", "") == Ok(r.value.description)
      && TextOr(d, "system", "") == Ok(r.value.systemTemplate)
      && TextOr(d, "user", "") == Ok(r.value.userTemplate)
  {
    if !data.JObj? then Err(AttributeError(NoGetMessage(data)))
    else
      var d := data.fields;
      var dims :- DimensionsOf(d);
      var name :- TextOr(d, "name", "unknown");
      var description :- TextOr(d, "description", "");
      var system :- TextOr(d, "system", "");
      var user :- TextOr(d, "user", "");
      Ok(PromptSpec(name, PyStr(repr, Get(d, "version", JStr("0.0"))), description, dims, system, user))
  }

  /** `load_prompt_spec(path)`. */
  function LoadPromptSpec(o: Oracles, fs: Fs, p: Path): (r: Result<PromptSpec>)
    ensures !IsFile(fs, p) ==> r == Err(FileNotFound("Prompt template not found: " + PathText(p)))
    ensures IsFile(fs, p) && LoadYaml(o, fs, p, MiniYaml.EngineStart).Ok? ==>
      r == SpecFromDict(o.repr, LoadYaml(o, fs, p, MiniYaml.EngineStart).value)
  {
    if !IsFile(fs, p) then Err(FileNotFound("Prompt template not found: " + PathText(p)))
    else
      var data :- LoadYaml(o, fs, p, MiniYaml.EngineStart);
      SpecFromDict(o.repr, data)
  }

  // ---------------------------------------------------------------------
  // the spec as a mapping, the partner of `SpecFromDict`
  // ---------------------------------------------------------------------

  function TextItems(names: seq<string>): (r: seq<Json>)
    ensures |r| == |names| && AllText(r)
    ensures forall i :: 0 <= i < |r| ==> r[i] == JStr(names[i])
  {
    if names == [] then [] else [JStr(names[0])] + TextItems(names[1..])
  }

  /** The YAML mapping a spec is written as. */
  function SpecJson(spec: PromptSpec): Json
  {
    JObj(map[
      "name" := JStr(spec.name), "version" := JStr(spec.version),
      "description" := JStr(spec.description), "dimensions" := JArr(TextItems(spec.dimensions)),
      "system" := JStr(spec.systemTemplate), "user" := JStr(spec.userTemplate)])
  }

  lemma TextsOfTextItems(names: seq<string>)
    ensures Texts(TextItems(names)) == names
  {
    var t := Texts(TextItems(names));
    assert |t| == |names|;
    assert forall i :: 0 <= i < |t| ==> t[i] == names[i];
  }

  /** Reading back the mapping of a spec gives the spec. */
  lemma SpecRoundTrip(repr: Json -> string, spec: PromptSpec)
    ensures SpecFromDict(repr, SpecJson(spec)) == Ok(spec)
  {
    SpecJsonFields(spec);
    SpecFromFields(repr, SpecJson(spec).fields, spec);
  }

  /** Every field of the spec is stored as text under its key. */
  predicate HoldsSpec(d: map<string, Json>, spec: PromptSpec)
  {
    && "name" in d && d["name"] == JStr(spec.name)
    && "version" in d && d["version"] == JStr(spec.version)
    && "description" in d && d["description"] == JStr(spec.description)
    && "dimensions" in d && d["dimensions"] == JArr(TextItems(spec.dimensions))
    && "system" in d && d["system"] == JStr(spec.systemTemplate)
    && "user" in d && d["user"] == JStr(spec.userTemplate)
  }

  lemma SpecJsonFields(spec: PromptSpec)
    ensures HoldsSpec(SpecJson(spec).fields, spec)
  {
  }

  lemma SpecFromFields(repr: Json -> string, d: map<string, Json>, spec: PromptSpec)
    requires HoldsSpec(d, spec)
    ensures SpecFromDict(repr, JObj(d)) == Ok(spec)
  {
    TextsOfTextItems(spec.dimensions);
    assert DimensionsOf(d) == Ok(spec.dimensions);
    assert TextOr(d, "name", "unknown") == Ok(spec.name);
    assert TextOr(d, "description", "") == Ok(spec.description);
    assert TextOr(d, "system", "") == Ok(spec.systemTemplate);
    assert TextOr(d, "user", "") == Ok(spec.userTemplate);
    assert PyStr(repr, Get(d, "version", JStr("0.0"))) == spec.version;
  }

  /** A comma-separated `dimensions` string of already-trimmed names gives
      those names. */
  lemma CommaDimensions(names: seq<string>)
    requires |names| >= 1
    requires forall i :: 0 <= i < |names| ==> ',' !in names[i] && (names[i] == [] || (!IsSpace(names[i][0]) && !IsSpace(names[i][|names[i]| - 1])))
    ensures DimensionsOf(map["dimensions" := JStr(Join(names, ","))]) == Ok(names)
  {
    SplitOnJoin(names, ',');
    assert "," == [','];
    var dims := StripAll(SplitOn(Join(names, ","), ','));
    assert SplitOn(Join(names, ","), ',') == names;
    forall i | 0 <= i < |names| ensures dims[i] == names[i] {
      StripTrimmed(names[i]);
    }
    assert dims == names;
  }

  // ---------------------------------------------------------------------
  // PromptRegistry
  // ---------------------------------------------------------------------

  /** The package's own template directory, `review/prompts/templates`. */
  const BuiltinDir: Path := ["impact_engine_evaluate", "review", "prompts", "templates"]

  /** Every spec is kept under its own name. */
  predicate SelfNamed(specs: map<string, PromptSpec>)
  {
    forall k :: k in specs ==> specs[k].name == k
  }

  /** The names `sorted(directory.glob("*.yaml"))` yields. */
  function YamlNames(fs: Fs, dir: Path): (r: seq<string>)
    requires IsDir(fs, dir)
    ensures forall i :: 0 <= i < |r| ==> r[i] in fs[dir] && EndsWith(r[i], ".yaml")
    ensures forall n :: n in fs[dir] && EndsWith(n, ".yaml") ==> n in r
    ensures StrictlySorted(r)
  {
    SortedSet(set n | n in fs[dir] && EndsWith(n, ".yaml"))
  }

  /** Loading the listed files in turn, each spec under its own name. The
      loader is the corrected one that starts with an empty key (see
      `MiniYaml.LeadingListItem`). */
  function ScanFiles(o: Oracles, fs: Fs, dir: Path, names: seq<string>, specs: map<string, PromptSpec>)
    : (r: Result<map<string, PromptSpec>>)
    ensures r.Ok? ==> specs.Keys <= r.value.Keys
    ensures r.Ok? && SelfNamed(specs) ==> SelfNamed(r.value)
    decreases |names|
  {
    if names == [] then Ok(specs)
    else
      var data :- LoadYaml(o, fs, dir + [names[0]], MiniYaml.EngineStart);
      var spec :- SpecFromDict(o.repr, data);
      ScanFiles(o, fs, dir, names[1..], specs[spec.name := spec])
  }

  /** `_scan(directory)`: a missing directory is skipped. */
  function Scan(o: Oracles, fs: Fs, dir: Path, specs: map<string, PromptSpec>): (r: Result<map<string, PromptSpec>>)
    ensures !IsDir(fs, dir) ==> r == Ok(specs)
    ensures r.Ok? ==> specs.Keys <= r.value.Keys
    ensures r.Ok? && SelfNamed(specs) ==> SelfNamed(r.value)
  {
    if !IsDir(fs, dir) then Ok(specs)
    else ScanFiles(o, fs, dir, YamlNames(fs, dir), specs)
  }

  function ScanAll(o: Oracles, fs: Fs, dirs: seq<Path>, specs: map<string, PromptSpec>): (r: Result<map<string, PromptSpec>>)
    ensures r.Ok? ==> specs.Keys <= r.value.Keys
    ensures r.Ok? && SelfNamed(specs) ==> SelfNamed(r.value)
    decreases |dirs|
  {
    if dirs == [] then Ok(specs)
    else
      var specs' :- Scan(o, fs, dirs[0], specs);
      ScanAll(o, fs, dirs[1..], specs')
  }

  /** `PromptRegistry(extra_dirs)`: the built-in templates, then each extra
      directory, later files replacing earlier ones of the same name. */
  function NewPromptRegistry(o: Oracles, fs: Fs, extraDirs: seq<Path>): (r: Result<map<string, PromptSpec>>)
    ensures r.Ok? ==> SelfNamed(r.value)
  {
    ScanAll(o, fs, [BuiltinDir] + extraDirs, map[])
  }

  /** `PromptRegistry.get(name)`. The source repeats the same lookup in
      `MethodReviewerRegistry.create` (`Methods.Create`); both are the shared
      `Registry.Lookup`, differing only in the kind named by the error. */
  function GetPrompt(specs: map<string, PromptSpec>, name: string): (r: Result<PromptSpec>)
    ensures r.Ok? <==> name in specs
    ensures r.Ok? ==> r.value == specs[name]
    ensures r.Err? ==> r.error == KeyError(Registry.MissingMessage(Registry.Unknown("prompt"), name, Registry.AvailableText(specs)))
  {
    Registry.Lookup(specs, name, Registry.Unknown("prompt"))
  }

  /** `PromptRegistry.register(spec)`. */
  function RegisterPrompt(specs: map<string, PromptSpec>, spec: PromptSpec): (r: map<string, PromptSpec>)
    ensures SelfNamed(specs) ==> SelfNamed(r)
    ensures GetPrompt(r, spec.name) == Ok(spec)
    ensures forall k :: k in specs && k != spec.name ==> k in r && r[k] == specs[k]
  {
    Registry.Register(specs, spec.name, spec)
  }

  /** With no extra directory that exists, the registry holds just what the
      built-in directory gives. */
  lemma MissingExtraDirsSkipped(o: Oracles, fs: Fs, extraDirs: seq<Path>)
    requires forall i :: 0 <= i < |extraDirs| ==> !IsDir(fs, extraDirs[i])
    ensures NewPromptRegistry(o, fs, extraDirs) == Scan(o, fs, BuiltinDir, map[])
  {
    var b := Scan(o, fs, BuiltinDir, map[]);
    if b.Ok? {
      SkipAll(o, fs, extraDirs, b.value);
      assert ([BuiltinDir] + extraDirs)[1..] == extraDirs;
    }
  }

  lemma {:induction false} SkipAll(o: Oracles, fs: Fs, dirs: seq<Path>, specs: map<string, PromptSpec>)
    requires forall i :: 0 <= i < |dirs| ==> !IsDir(fs, dirs[i])
    ensures ScanAll(o, fs, dirs, specs) == Ok(specs)
    decreases |dirs|
  {
    if dirs != [] {
      SkipAll(o, fs, dirs[1..], specs);
    }
  }
}
