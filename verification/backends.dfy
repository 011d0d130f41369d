/** LLM backends: the completion interface, the registry that builds a
    backend by name from keyword arguments, and the Anthropic backend's
    assembly of a Messages API request.
 */
module Backends {
  import opened Wrappers
  import opened Text
  import opened Sorting
  import opened Json
  import Registry

  /** A chat message, `{"role": ..., "content": ...}`. */
  datatype Message = Message(role: string, content: string)

  /** The keyword arguments of `Backend.complete`. */
  datatype CallArgs = CallArgs(model: Option<string>, temperature: real, maxTokens: int)

  datatype Backend = Backend(name: string, complete: (seq<Message>, CallArgs) -> Result<string>)

  /** A registered backend class: its constructor applied to keyword arguments. */
  type Factory = map<string, Json> -> Result<Backend>

  /** `BackendRegistry.create(name, **kwargs)`. */
  function Create(factories: map<string, Factory>, name: string, kwargs: map<string, Json>): (r: Result<Backend>)
    ensures name !in factories ==>
      r == Err(KeyError(Registry.MissingMessage(Registry.Unknown("backend"), name, Registry.AvailableText(factories))))
    ensures name in factories ==> r == factories[name](kwargs)
  {
    var factory :- Registry.Lookup(factories, name, Registry.Unknown("backend"));
    factory(kwargs)
  }

  // ---------------------------------------------------------------------
  // Anthropic
  // ---------------------------------------------------------------------

  const AnthropicName := "anthropic"
  const AnthropicDefaultModel := "claude-sonnet-4-5-20250929"
  const AnthropicDefaultMaxTokens := 4096
  const AnthropicImportMessage := "The 'anthropic' package is required: pip install anthropic"
  const AnthropicKeywords: set<string> := {"model", "api_key", "max_tokens"}

  /** What `AnthropicBackend.__init__` keeps. */
  datatype AnthropicSettings = AnthropicSettings(model: string, apiKey: Option<string>, maxTokens: int)

  /** The keyword arguments of `client.messages.create`. */
  datatype AnthropicRequest = AnthropicRequest(
    model: string,
    maxTokens: int,
    temperature: real,
    messages: seq<Message>,
    system: Option<string>)

  /** The Anthropic client: the API key it was built with and a request. */
  type AnthropicClient = (Option<string>, AnthropicRequest) -> Result<string>

  /** Binding the constructor's keyword arguments. */
  function SettingsOf(kwargs: map<string, Json>): (r: Result<AnthropicSettings>)
    ensures !(kwargs.Keys <= AnthropicKeywords) ==> r.Err? && r.error.TypeError?
    ensures kwargs == map[] ==> r == Ok(AnthropicSettings(AnthropicDefaultModel, None, AnthropicDefaultMaxTokens))
    ensures r.Ok? ==> JStr(r.value.model) == Get(kwargs, "model", JStr(AnthropicDefaultModel))
    ensures r.Ok? ==> JInt(r.value.maxTokens) == Get(kwargs, "max_tokens", JInt(AnthropicDefaultMaxTokens))
  {
    var unexpected := kwargs.Keys - AnthropicKeywords;
    if unexpected != {} then
      Err(TypeError("AnthropicBackend.__init__() got an unexpected keyword argument " + Repr(Least(unexpected))))
    else
      var model := Get(kwargs, "model", JStr(AnthropicDefaultModel));
      var key := Get(kwargs, "api_key", JNull);
      var maxTokens := Get(kwargs, "max_tokens", JInt(AnthropicDefaultMaxTokens));
      if !model.JStr? || !(key.JStr? || key.JNull?) || !maxTokens.JInt? then
        Err(Unsupported("Anthropic backend argument of an unrepresented type"))
      else
        Ok(AnthropicSettings(model.s, if key.JStr? then Some(key.s) else None, maxTokens.i))
  }

  /** The contents of the system messages, in order. */
  function SystemParts(msgs: seq<Message>): (r: seq<string>)
    ensures |r| <= |msgs|
  {
    if msgs == [] then []
    else (if msgs[0].role == "system" then [msgs[0].content] else []) + SystemParts(msgs[1..])
  }

  /** The non-system messages, in order. */
  function ChatMessages(msgs: seq<Message>): (r: seq<Message>)
    ensures |r| <= |msgs|
    ensures forall i :: 0 <= i < |r| ==> r[i].role != "system" && r[i] in msgs
  {
    if msgs == [] then []
    else (if msgs[0].role != "system" then [msgs[0]] else []) + ChatMessages(msgs[1..])
  }

  /** The system text is made of system messages' contents, and every
      system message contributes its content. */
  lemma {:induction false} SystemPartsContents(msgs: seq<Message>)
    ensures forall i :: 0 <= i < |SystemParts(msgs)| ==>
      exists j :: 0 <= j < |msgs| && msgs[j].role == "system" && msgs[j].content == SystemParts(msgs)[i]
    ensures forall j :: 0 <= j < |msgs| && msgs[j].role == "system" ==> msgs[j].content in SystemParts(msgs)
  {
    if msgs != [] {
      SystemPartsContents(msgs[1..]);
      var r := SystemParts(msgs);
      var h := if msgs[0].role == "system" then [msgs[0].content] else [];
      var t := SystemParts(msgs[1..]);
      assert r == h + t;
      forall i | 0 <= i < |r|
        ensures exists j :: 0 <= j < |msgs| && msgs[j].role == "system" && msgs[j].content == r[i]
      {
        if i < |h| {
          assert 0 < |msgs| && msgs[0].role == "system" && msgs[0].content == r[i];
        } else {
          var m1 := msgs[1..];
          var k := i - |h|;
          assert 0 <= k < |t| && r[i] == t[k];
          assert exists j :: 0 <= j < |m1| && m1[j].role == "system" && m1[j].content == t[k];
          var j :| 0 <= j < |m1| && m1[j].role == "system" && m1[j].content == t[k];
          assert msgs[j + 1] == m1[j];
          assert 0 <= j + 1 < |msgs| && msgs[j + 1].role == "system" && msgs[j + 1].content == r[i];
        }
      }
      assert forall i :: 0 <= i < |SystemParts(msgs)| ==>
        exists j :: 0 <= j < |msgs| && msgs[j].role == "system" && msgs[j].content == SystemParts(msgs)[i];
      forall j | 0 <= j < |msgs| && msgs[j].role == "system" ensures msgs[j].content in r {
        if j > 0 {
          assert msgs[1..][j - 1] == msgs[j];
        }
      }
    } else {
      assert SystemParts(msgs) == [];
    }
  }

  /** Both filters keep order: filtering a concatenation concatenates the
      filtered parts, so a system message ahead of another contributes its
      text ahead of the other's, and likewise for chat messages. */
  lemma SplitAppend(a: seq<Message>, b: seq<Message>)
    ensures SystemParts(a + b) == SystemParts(a) + SystemParts(b)
    ensures ChatMessages(a + b) == ChatMessages(a) + ChatMessages(b)
  {
    SystemAppend(a, b);
    ChatAppend(a, b);
  }

  lemma {:induction false} SystemAppend(a: seq<Message>, b: seq<Message>)
    ensures SystemParts(a + b) == SystemParts(a) + SystemParts(b)
  {
    if a == [] {
      assert a + b == b;
    } else {
      var ab := a + b;
      assert ab[0] == a[0] && ab[1..] == a[1..] + b;
      SystemAppend(a[1..], b);
      var h := if a[0].role == "system" then [a[0].content] else [];
      assert SystemParts(ab) == h + SystemParts(a[1..] + b);
      ConsAppend(SystemParts(ab), h, SystemParts(a[1..] + b), SystemParts(a), SystemParts(a[1..]), SystemParts(b));
    }
  }

  lemma {:induction false} ChatAppend(a: seq<Message>, b: seq<Message>)
    ensures ChatMessages(a + b) == ChatMessages(a) + ChatMessages(b)
  {
    if a == [] {
      assert a + b == b;
    } else {
      var ab := a + b;
      assert ab[0] == a[0] && ab[1..] == a[1..] + b;
      ChatAppend(a[1..], b);
      ChatUnfold(ab);
      ChatUnfold(a);
      var h := if a[0].role != "system" then [a[0]] else [];
      ConsAppend(ChatMessages(ab), h, ChatMessages(a[1..] + b), ChatMessages(a), ChatMessages(a[1..]), ChatMessages(b));
    }
  }

  lemma ChatUnfold(m: seq<Message>)
    requires m != []
    ensures ChatMessages(m) == (if m[0].role != "system" then [m[0]] else []) + ChatMessages(m[1..])
  {
  }

  /** Every message goes to exactly one side: the system text or the chat. */
  lemma {:induction false} SplitIsPartition(msgs: seq<Message>)
    ensures |SystemParts(msgs)| + |ChatMessages(msgs)| == |msgs|
    ensures (forall i :: 0 <= i < |msgs| ==> msgs[i].role != "system") ==> ChatMessages(msgs) == msgs
  {
    if msgs != [] {
      SplitIsPartition(msgs[1..]);
      assert [msgs[0]] + msgs[1..] == msgs;
    }
  }

  /** The request `AnthropicBackend.complete` sends. */
  function BuildRequest(s: AnthropicSettings, msgs: seq<Message>, args: CallArgs): (q: AnthropicRequest)
    ensures q.model == (if args.model.Some? && args.model.value != "" then args.model.value else s.model)
    ensures q.maxTokens == (if args.maxTokens != 0 then args.maxTokens else s.maxTokens)
    ensures q.temperature == args.temperature
    ensures q.messages == ChatMessages(msgs)
    ensures q.system.Some? <==> SystemParts(msgs) != []
    ensures q.system.Some? ==> q.system.value == Join(SystemParts(msgs), "\n\n")
  {
    var model := if args.model.Some? && args.model.value != "" then args.model.value else s.model;
    var maxTokens := if args.maxTokens != 0 then args.maxTokens else s.maxTokens;
    var parts := SystemParts(msgs);
    AnthropicRequest(model, maxTokens, args.temperature, ChatMessages(msgs),
      if parts != [] then Some(Join(parts, "\n\n")) else None)
  }

  /** `AnthropicBackend(**kwargs)`, given the client the installed package
      provides, or `None` when the package is missing. */
  function Anthropic(client: Option<AnthropicClient>, kwargs: map<string, Json>): (r: Result<Backend>)
    ensures (kwargs.Keys <= AnthropicKeywords) && SettingsOf(kwargs).Ok? && client.None? ==>
      r == Err(ImportError(AnthropicImportMessage))
    ensures r.Ok? ==> r.value.name == AnthropicName && client.Some? && SettingsOf(kwargs).Ok?
    ensures r.Ok? ==> forall msgs, args ::
      r.value.complete(msgs, args) == client.value(SettingsOf(kwargs).value.apiKey, BuildRequest(SettingsOf(kwargs).value, msgs, args))
  {
    var s :- SettingsOf(kwargs);
    match client
    case None => Err(ImportError(AnthropicImportMessage))
    case Some(c) => Ok(Backend(AnthropicName, (msgs, args) => c(s.apiKey, BuildRequest(s, msgs, args))))
  }

  const OpenAIName := "openai"
  const LiteLLMName := "litellm"

  /** The registry as `_auto_register` leaves it. Each of the three modules
      registers its class on import whether or not its SDK is installed; a
      missing SDK only makes the constructor raise. The OpenAI and LiteLLM
      constructors are opaque factories. */
  function AutoRegistered(client: Option<AnthropicClient>, openai: Factory, litellm: Factory): (factories: map<string, Factory>)
    ensures factories.Keys == {AnthropicName, OpenAIName, LiteLLMName}
    ensures forall kwargs :: factories[AnthropicName](kwargs) == Anthropic(client, kwargs)
    ensures factories[OpenAIName] == openai && factories[LiteLLMName] == litellm
  {
    var anthropic := (kwargs: map<string, Json>) => Anthropic(client, kwargs);
    var r := Registry.Register(map[], AnthropicName, anthropic);
    var r := Registry.Register(r, OpenAIName, openai);
    Registry.Register(r, LiteLLMName, litellm)
  }

  /** `BackendRegistry.available()` after auto-registration, and the list an
      unknown backend's `KeyError` shows. */
  lemma AutoRegisteredAvailable(client: Option<AnthropicClient>, openai: Factory, litellm: Factory,
                                name: string, kwargs: map<string, Json>)
    ensures Registry.Available(AutoRegistered(client, openai, litellm)) == [AnthropicName, LiteLLMName, OpenAIName]
    ensures Registry.AvailableText(AutoRegistered(client, openai, litellm)) == "anthropic, litellm, openai"
    ensures name !in {AnthropicName, OpenAIName, LiteLLMName} ==>
      Create(AutoRegistered(client, openai, litellm), name, kwargs)
        == Err(KeyError(Registry.MissingMessage(Registry.Unknown("backend"), name, "anthropic, litellm, openai")))
  {
    var r := AutoRegistered(client, openai, litellm);
    UnknownOfThree(r, name, kwargs);
  }

  /** The same for any registry holding exactly the three backend names. */
  lemma UnknownOfThree(r: map<string, Factory>, name: string, kwargs: map<string, Json>)
    requires r.Keys == {AnthropicName, OpenAIName, LiteLLMName}
    ensures Registry.Available(r) == [AnthropicName, LiteLLMName, OpenAIName]
    ensures Registry.AvailableText(r) == "anthropic, litellm, openai"
    ensures name !in {AnthropicName, OpenAIName, LiteLLMName} ==>
      Create(r, name, kwargs)
        == Err(KeyError(Registry.MissingMessage(Registry.Unknown("backend"), name, "anthropic, litellm, openai")))
  {
    AvailableOfThree(r);
    JoinThree();
    assert Join(Registry.Available(r), ", ") == "anthropic, litellm, openai";
  }

  /** Any registry holding exactly the three backend names lists them in code-point order. */
  lemma AvailableOfThree<T>(r: map<string, T>)
    requires r.Keys == {AnthropicName, OpenAIName, LiteLLMName}
    ensures Registry.Available(r) == [AnthropicName, LiteLLMName, OpenAIName]
  {
    var names := Registry.Available(r);
    assert AnthropicName[0] == 'a' && LiteLLMName[0] == 'l' && OpenAIName[0] == 'o';
    assert AnthropicName != LiteLLMName && LiteLLMName != OpenAIName && AnthropicName != OpenAIName;
    assert |r.Keys| == 3;
    assert StrLe(AnthropicName, LiteLLMName) && StrLe(LiteLLMName, OpenAIName);
    SortedThree(names, AnthropicName, LiteLLMName, OpenAIName);
  }

  lemma JoinThree()
    ensures Join([AnthropicName, LiteLLMName, OpenAIName], ", ") == "anthropic, litellm, openai"
  {
    var names := [AnthropicName, LiteLLMName, OpenAIName];
    assert names[1..] == [LiteLLMName, OpenAIName] && names[1..][1..] == [OpenAIName];
  }

  /** A request built from system and user messages carries the system text
      separately and the user message alone in the chat. */
  lemma SystemAndUser(s: AnthropicSettings, sys: string, user: string, args: CallArgs)
    ensures var q := BuildRequest(s, [Message("system", sys), Message("user", user)], args);
      q.system == Some(sys) && q.messages == [Message("user", user)]
  {
    var msgs := [Message("system", sys), Message("user", user)];
    assert msgs[1..] == [Message("user", user)];
    assert msgs[1..][1..] == [];
    assert SystemParts(msgs) == [sys];
    assert ChatMessages(msgs) == [Message("user", user)];
  }
}
