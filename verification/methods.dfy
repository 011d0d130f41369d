/** Method reviewers: the per-methodology bundle of prompt name, confidence
    range, template directory and knowledge directory, and the registry
    keyed by a manifest's `model_type`.
 */
module Methods {
  import opened Wrappers
  import opened Sorting
  import opened Text
  import opened Files
  import Registry

  datatype Reviewer = Reviewer(
    /** The Python class, as named in instantiation errors. */
    className: string,
    /** Whether the class itself defines `load_artifact`, which the base
        class declares abstract. */
    definesLoad: bool,
    name: string,
    promptName: string,
    description: string,
    /** Only concrete reviewers define `confidence_range`; the base class does not. */
    confidenceRange: Option<(real, real)>,
    /** `prompt_template_dir()`. */
    templateDir: Option<Path>,
    /** `knowledge_content_dir()`. */
    knowledgeDir: Option<Path>)

  /** The package directory holding the reviewers, `review/methods`. */
  const MethodsDir: Path := ["impact_engine_evaluate", "review", "methods"]

  /** What `MethodReviewer` itself provides. */
  const BaseReviewer := Reviewer("MethodReviewer", false, "", "", "", None, None, None)

  const Experiment := Reviewer(
    "ExperimentReviewer", false,
    "experiment", "experiment_review",
    "Review experimental (RCT) impact measurement artifacts.",
    Some((0.85, 1.0)),
    Some(MethodsDir + ["experiment", "templates"]),
    Some(MethodsDir + ["experiment", "knowledge"]))

  const QuasiExperimental := Reviewer(
    "QuasiExperimentalReviewer", false,
    "quasi_experimental", "quasi_experimental_review",
    "Review quasi-experimental (DiD, RDD, IV) impact measurement artifacts.",
    Some((0.60, 0.85)),
    Some(MethodsDir + ["quasi_experimental", "templates"]),
    Some(MethodsDir + ["quasi_experimental", "knowledge"]))

  /** The registry after the package is imported: only `experiment` is
      auto-registered. */
  const Builtins: map<string, Reviewer> := map["experiment" := Experiment]

  /** The registry once the quasi-experimental module has been imported too. */
  function WithQuasiExperimental(r: map<string, Reviewer>): (r': map<string, Reviewer>)
    ensures r'.Keys == r.Keys + {"quasi_experimental"} && r'["quasi_experimental"] == QuasiExperimental
  {
    Registry.Register(r, "quasi_experimental", QuasiExperimental)
  }

  /** `MethodReviewerRegistry.create(name)` with the default artifact loader
      the experiment reviewer's documentation promises in the base class, so
      that every registered reviewer can be instantiated. */
  function Create(r: map<string, Reviewer>, name: string): (res: Result<Reviewer>)
    ensures res.Ok? <==> name in r
    ensures res.Ok? ==> res.value == r[name]
    ensures res.Err? ==>
      res.error == KeyError(Registry.MissingMessage(Registry.Unknown("method"), name, Registry.AvailableText(r)))
  {
    Registry.Lookup(r, name, Registry.Unknown("method"))
  }

  /** Each built-in reviewer is registered under its own name, and its
      confidence range is a proper sub-interval of [0, 1]. */
  lemma BuiltinsWellFormed(r: map<string, Reviewer>)
    requires r == WithQuasiExperimental(Builtins)
    ensures forall k :: k in r ==> r[k].name == k
    ensures forall k :: k in r ==>
      r[k].confidenceRange.Some? && 0.0 <= r[k].confidenceRange.value.0 < r[k].confidenceRange.value.1 <= 1.0
  {
  }

  /** The only name on offer after import is `experiment`, so asking for the
      quasi-experimental reviewer before its module is imported fails with
      a message that lists just that one. */
  lemma QuasiNotAutoRegistered()
    ensures Create(Builtins, "quasi_experimental")
      == Err(KeyError(Registry.MissingMessage(Registry.Unknown("method"), "quasi_experimental", "experiment")))
  {
    var names := Registry.Available(Builtins);
    assert |names| == 1 && names[0] in Builtins;
    assert names == ["experiment"];
    assert Registry.AvailableText(Builtins) == "experiment";
  }

  /** Python's refusal to instantiate a class with an abstract method left. */
  function AbstractMessage(className: string): string
  {
    "Can't instantiate abstract class " + className
      + " without an implementation for abstract method 'load_artifact'"
  }

  /** `MethodReviewerRegistry.create(name)` as written: `load_artifact` is
      abstract in the base class, so instantiating a reviewer class that
      does not define it raises `TypeError`. */
  function CreateAsWritten(r: map<string, Reviewer>, name: string): (res: Result<Reviewer>)
    ensures name !in r ==> res == Create(r, name)
    ensures name in r ==> (res.Ok? <==> r[name].definesLoad)
    ensures res.Ok? ==> res == Create(r, name)
    ensures name in r && !r[name].definesLoad ==> res == Err(TypeError(AbstractMessage(r[name].className)))
  {
    var reviewer :- Create(r, name);
    if reviewer.definesLoad then Ok(reviewer) else Err(TypeError(AbstractMessage(reviewer.className)))
  }

  /** Neither built-in reviewer defines `load_artifact`, so as written the
      registry can name them but not instantiate either. */
  lemma BuiltinsNotInstantiable(r: map<string, Reviewer>, name: string)
    requires r == WithQuasiExperimental(Builtins)
    ensures name in r <==> name == "experiment" || name == "quasi_experimental"
    ensures name == "experiment" ==>
      CreateAsWritten(r, name) == Err(TypeError(AbstractMessage("ExperimentReviewer")))
    ensures name == "quasi_experimental" ==>
      CreateAsWritten(r, name) == Err(TypeError(AbstractMessage("QuasiExperimentalReviewer")))
    ensures CreateAsWritten(r, name).Err?
    ensures forall k :: k in r ==> !r[k].definesLoad
  {
    assert r.Keys == {"experiment", "quasi_experimental"};
    assert r["experiment"] == Experiment && r["quasi_experimental"] == QuasiExperimental;
    if name in r {
      assert !r[name].definesLoad;
    } else {
      assert Create(r, name).Err?;
    }
  }
}
