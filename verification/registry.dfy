/** The name-to-entry registries behind `MethodReviewerRegistry`,
    `BackendRegistry` and `PromptRegistry`: registration replaces the entry
    for a name and touches nothing else; lookup of an unknown name raises
    `KeyError` naming the registered names in sorted order.
 */
module Registry {
  import opened Wrappers
  import opened Text
  import opened Sorting

  /** `sorted(registry)`. */
  function Available<T>(r: map<string, T>): (names: seq<string>)
    ensures |names| == |r|
    ensures forall i :: 0 <= i < |names| ==> names[i] in r
    ensures forall k :: k in r ==> k in names
    ensures StrictlySorted(names)
  {
    SortedSet(r.Keys)
  }

  /** `", ".join(sorted(registry)) or "(none)"`. */
  function AvailableText<T>(r: map<string, T>): (t: string)
    ensures t != []
    ensures r == map[] ==> t == "(none)"
  {
    var joined := Join(Available(r), ", ");
    if joined == "" then "(none)" else joined
  }

  /** The two wordings of the unknown-name error. */
  datatype Label =
    | Unknown(kind: string)        // "Unknown <kind> 'x'. Available: ..."
    | NotRegistered(kind: string)  // "<Kind> 'x' not registered. Available: ..."

  function MissingMessage(wording: Label, name: string, available: string): string
  {
    match wording
    case Unknown(kind) => "Unknown " + kind + " " + Repr(name) + ". Available: " + available
    case NotRegistered(kind) => kind + " " + Repr(name) + " not registered. Available: " + available
  }

  /** `registry[name]`, or the `KeyError` the registry raises. */
  function Lookup<T>(r: map<string, T>, name: string, wording: Label): (res: Result<T>)
    ensures res.Ok? <==> name in r
    ensures res.Ok? ==> res.value == r[name]
    ensures res.Err? ==> res.error == KeyError(MissingMessage(wording, name, AvailableText(r)))
  {
    if name in r then Ok(r[name]) else Err(KeyError(MissingMessage(wording, name, AvailableText(r))))
  }

  /** `registry[name] = entry`. */
  function Register<T>(r: map<string, T>, name: string, entry: T): (r': map<string, T>)
    ensures r'.Keys == r.Keys + {name}
    ensures r'[name] == entry
    ensures forall k :: k in r && k != name ==> r'[k] == r[k]
  {
    r[name := entry]
  }

  /** After registering, the name resolves to the new entry and every other
      name resolves as before. */
  lemma RegisterThenLookup<T>(r: map<string, T>, name: string, entry: T, other: string, wording: Label)
    ensures Lookup(Register(r, name, entry), name, wording) == Ok(entry)
    ensures other != name && other in r ==> Lookup(Register(r, name, entry), other, wording) == Lookup(r, other, wording)
  {
  }

  /** Registering the same entry twice is the same as registering it once. */
  lemma RegisterIdempotent<T>(r: map<string, T>, name: string, entry: T)
    ensures Register(Register(r, name, entry), name, entry) == Register(r, name, entry)
  {
  }

  /** The later of two registrations under one name wins. */
  lemma RegisterOverwrites<T>(r: map<string, T>, name: string, a: T, b: T)
    ensures Register(Register(r, name, a), name, b) == Register(r, name, b)
  {
  }
}
