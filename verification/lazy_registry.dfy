/** The two name registries the review API consults: prompt names to YAML
    files and knowledge-base names to directories. Each is a module-level
    dictionary that gets its built-in entries the first time it is read,
    so its state is the dictionary together with that flag.
 */
module LazyRegistry {
  import opened Wrappers
  import opened Files
  import opened Oracles
  import opened Models
  import Registry
  import Sorting
  import Methods
  import Prompts
  import Knowledge

  datatype State = State(entries: map<string, Path>, defaultsLoaded: bool)

  /** Before any call, and after `clear_*_registry()`. */
  const Cleared := State(map[], false)

  const PromptDefaults: map<string, Path> := map[
    "experiment_review" := Methods.MethodsDir + ["experiment", "templates", "experiment_review.yaml"],
    "quasi_experimental_review" := Methods.MethodsDir + ["quasi_experimental", "templates", "quasi_experimental_review.yaml"]]

  const KnowledgeDefaults: map<string, Path> := map[
    "experiment" := Methods.MethodsDir + ["experiment", "knowledge"],
    "quasi_experimental" := Methods.MethodsDir + ["quasi_experimental", "knowledge"]]

  /** `_ensure_defaults_loaded()`: on the first read the built-in entries are
      written over whatever is there. */
  function EnsureDefaults(st: State, defaults: map<string, Path>): (st': State)
    ensures st'.defaultsLoaded
    ensures st.defaultsLoaded ==> st' == st
    ensures !st.defaultsLoaded ==>
      && st'.entries.Keys == st.entries.Keys + defaults.Keys
      && (forall k :: k in defaults ==> st'.entries[k] == defaults[k])
      && (forall k :: k in st.entries && k !in defaults ==> st'.entries[k] == st.entries[k])
  {
    if st.defaultsLoaded then st else State(st.entries + defaults, true)
  }

  /** `register_prompt` / `register_knowledge_base`. */
  function Register(st: State, name: string, p: Path): (st': State)
    ensures st'.defaultsLoaded == st.defaultsLoaded
    ensures st'.entries == Registry.Register(st.entries, name, p)
  {
    State(st.entries[name := p], st.defaultsLoaded)
  }

  /** The lookup `load_prompt` / `load_knowledge_base` make before loading. */
  function Find(st: State, defaults: map<string, Path>, name: string, kind: string): (r: (Result<Path>, State))
    ensures r.1 == EnsureDefaults(st, defaults)
    ensures r.0.Ok? <==> name in r.1.entries
    ensures r.0.Ok? ==> r.0.value == r.1.entries[name]
    ensures r.0.Err? ==>
      r.0.error == KeyError(Registry.MissingMessage(Registry.NotRegistered(kind), name, Registry.AvailableText(r.1.entries)))
  {
    var st' := EnsureDefaults(st, defaults);
    (Registry.Lookup(st'.entries, name, Registry.NotRegistered(kind)), st')
  }

  /** `list_prompts()` / `list_knowledge_bases()`. */
  function List(st: State, defaults: map<string, Path>): (r: (seq<string>, State))
    ensures r.1 == EnsureDefaults(st, defaults)
    ensures r.0 == Registry.Available(r.1.entries)
  {
    var st' := EnsureDefaults(st, defaults);
    (Registry.Available(st'.entries), st')
  }

  /** `clear_prompt_registry()` / `clear_knowledge_registry()`. */
  function Clear(st: State): (st': State)
    ensures st' == Cleared
  {
    Cleared
  }

  /** `load_prompt(name)`. */
  function LoadPrompt(o: Oracles, fs: Fs, st: State, name: string): (r: (Result<PromptSpec>, State))
    ensures r.1 == EnsureDefaults(st, PromptDefaults)
    ensures var f := Find(st, PromptDefaults, name, "Prompt").0;
      r.0 == (match f case Ok(p) => Prompts.LoadPromptSpec(o, fs, p) case Err(e) => Err(e))
  {
    var (p, st') := Find(st, PromptDefaults, name, "Prompt");
    match p
    case Ok(path) => (Prompts.LoadPromptSpec(o, fs, path), st')
    case Err(e) => (Err(e), st')
  }

  /** `load_knowledge_base(name)`. */
  function LoadKnowledgeBase(fs: Fs, st: State, name: string): (r: (Result<string>, State))
    ensures r.1 == EnsureDefaults(st, KnowledgeDefaults)
    ensures var f := Find(st, KnowledgeDefaults, name, "Knowledge base").0;
      r.0 == (match f case Ok(p) => Ok(Knowledge.LoadKnowledge(fs, p)) case Err(e) => Err(e))
  {
    var (p, st') := Find(st, KnowledgeDefaults, name, "Knowledge base");
    match p
    case Ok(dir) => (Ok(Knowledge.LoadKnowledge(fs, dir)), st')
    case Err(e) => (Err(e), st')
  }

  // ---------------------------------------------------------------------
  // Properties
  // ---------------------------------------------------------------------

  /** Loading the defaults twice is loading them once. */
  lemma EnsureDefaultsIdempotent(st: State, defaults: map<string, Path>)
    ensures EnsureDefaults(EnsureDefaults(st, defaults), defaults) == EnsureDefaults(st, defaults)
  {
  }

  /** Once the registry has been read, or for a name that is not built in,
      a registration is what a later lookup finds. */
  lemma RegisterThenFind(st: State, defaults: map<string, Path>, name: string, p: Path, kind: string)
    requires st.defaultsLoaded || name !in defaults
    ensures Find(Register(st, name, p), defaults, name, kind).0 == Ok(p)
  {
  }

  /** Every built-in name is always listed, whatever was registered or
      cleared before. */
  lemma DefaultsAlwaysListed(st: State, defaults: map<string, Path>, k: string)
    requires k in defaults && (st.defaultsLoaded ==> defaults.Keys <= st.entries.Keys)
    ensures k in List(st, defaults).0
  {
  }

  lemma TwoSorted(m: map<string, Path>, x: string, y: string)
    requires m.Keys == {x, y} && x != [] && y != [] && x[0] < y[0]
    ensures Registry.Available(m) == [x, y]
  {
    var a := Registry.Available(m);
    assert |m.Keys| == 2;
    assert |a| == 2 && a[0] != a[1];
    assert a[0] in m && a[1] in m;
    assert Sorting.StrLe(a[0], a[1]);
  }

  /** After a clear, the listing is exactly the built-in names. */
  lemma ClearedListsDefaults(st: State)
    ensures List(Clear(st), PromptDefaults).0 == ["experiment_review", "quasi_experimental_review"]
    ensures List(Clear(st), KnowledgeDefaults).0 == ["experiment", "quasi_experimental"]
  {
    ClearedListsPrompts(st);
    ClearedListsKnowledge(st);
  }

  lemma ClearedListsPrompts(st: State)
    ensures List(Clear(st), PromptDefaults).0 == ["experiment_review", "quasi_experimental_review"]
  {
    assert PromptDefaults.Keys == {"experiment_review", "quasi_experimental_review"};
    ClearedLists(st, PromptDefaults, "experiment_review", "quasi_experimental_review");
  }

  lemma ClearedListsKnowledge(st: State)
    ensures List(Clear(st), KnowledgeDefaults).0 == ["experiment", "quasi_experimental"]
  {
    assert KnowledgeDefaults.Keys == {"experiment", "quasi_experimental"};
    ClearedLists(st, KnowledgeDefaults, "experiment", "quasi_experimental");
  }

  lemma ClearedLists(st: State, defaults: map<string, Path>, x: string, y: string)
    requires defaults.Keys == {x, y} && x != [] && y != [] && x[0] < y[0]
    ensures List(Clear(st), defaults).0 == [x, y]
  {
    ClearedEntries(defaults);
    TwoSorted(defaults, x, y);
  }

  lemma ClearedEntries(defaults: map<string, Path>)
    ensures EnsureDefaults(Cleared, defaults).entries == defaults
  {
    assert map[] + defaults == defaults;
  }

  /** A registration made under a built-in name before the registry is
      first read is overwritten by the built-in entry. */
  lemma EarlyRegistrationOverwritten(p: Path)
    requires p != PromptDefaults["experiment_review"]
    ensures Find(Register(Cleared, "experiment_review", p), PromptDefaults, "experiment_review", "Prompt").0
      == Ok(PromptDefaults["experiment_review"])
  {
  }
}
