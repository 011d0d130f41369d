# impact-engine-evaluate: the EVALUATE stage in Dafny

This project models the EVALUATE stage of `impact_engine_evaluate`. That stage turns a job directory into a confidence in [0, 1], in one of two ways:

- **score**: a seeded uniform draw from the method reviewer's confidence range.
- **review**: an LLM review of the job's artifact. The prompt comes from the method's templates or a registry. Knowledge comes from the method's knowledge files or a registry. The reply is parsed into scored dimensions and an overall score.

`Evaluate.EvaluateConfidence` is `evaluate_confidence`. It is `Evaluate.EvaluateWith` with the review step set to `ReviewApi.ReviewJob`, which is `review(job_dir, config=...)`. The pieces:

- **Job directory.** A two-level map from directory path to file name to text (`Files`). Reads, writes, `is_dir`, `is_file` and globbing are map look-ups and updates.
- **Opaque collaborators.** These are fields of one `Oracles` value that every operation receives:
  - `json.loads` and `json.dumps`;
  - MD5 and the two seeded random generators;
  - Jinja2 and PyYAML, each present or missing;
  - `str()` of a JSON value and `%.2f` formatting;
  - `MethodReviewer.load_artifact`.
- **Backends and the environment.** A backend's `complete` is a function value. The UTC timestamp and the process environment are parameters.
- **Python semantics written out.**
  - Integers and floats are `int` and `real`. Float rounding is not modelled.
  - `float()` and `int()` of text, `x or y`, `repr` and `sorted` on strings (code-point order) are written out in `Json`, `Text` and `Sorting`.
  - A Python exception is an `Err` of the `Wrappers.Error` datatype, named after the exception class and carrying its message where the code builds one.
- **Registries.** Maps threaded through as values:
  - method reviewers, backends and `PromptRegistry`;
  - the two module-level lazy registries (`prompt_registry.py` and `knowledge_registry.py`), which carry a "defaults loaded" flag.

`_render_template` and `render` appear twice in the source, in `review/engine.py` and `review/prompts/renderer.py`. The two copies are the same, and `Render` models both.

The reply parser (`Parser`) follows the two regular expressions of `_parse_dimensions` and `_parse_overall` step by step:

- A block is `DIMENSION:` and a run of non-space characters. Then `SCORE:` and a run of digits and dots. Then `JUSTIFICATION:` and a lazily matched text that ends at the first newline followed by `DIMENSION:` or `OVERALL:`, or at the end of the reply. A blank line does not end it.
- The `\s*` gaps between the fields may span lines.
- `Parser.Scan` returns the non-overlapping matches from left to right, as `finditer` does.
- `Parser.FindOverall` is the first `OVERALL:` followed by optional white space and a number.
- `\s` and `str.strip()`/`str.split()` use Python's Unicode white space (`Text.IsSpace`, the characters `str.isspace` accepts). `\d` is modelled as the ASCII digits, and `lower()` maps only ASCII letters (see Left out).

## Model

| member | source | states |
|---|---|---|
| Files.Read | impact_engine_evaluate/review/engine.py:107 | reading succeeds exactly on an existing file and gives its text |
| Files.Write | impact_engine_evaluate/api.py:164-165 | writing succeeds exactly when the parent directory exists |
| Files.WriteThenRead | impact_engine_evaluate/api.py:164-165 | after a write the file reads back as written, every other path reads as before, and no directory appears or vanishes |
| Files.WriteIdempotent | impact_engine_evaluate/api.py:164-165 | writing the same text twice is writing it once |
| Sorting.Least | impact_engine_evaluate/review/methods/base.py:117 | the chosen element is the least of a non-empty set in code-point order |
| Sorting.SortedSet | impact_engine_evaluate/review/methods/base.py:125 | `sorted(set)` lists every element once, nothing else, strictly ascending |
| Text.StripBy | impact_engine_evaluate/review/engine.py:407 | the stripped text is no longer than the input and neither starts nor ends with a stripped character |
| Text.LStripByShape | impact_engine_evaluate/review/engine.py:382 | `lstrip` removes exactly a leading run of the stripped characters |
| Text.RStripByShape | impact_engine_evaluate/review/engine.py:407 | `rstrip` removes exactly a trailing run of the stripped characters |
| Text.StripEmptyIffBlank | impact_engine_evaluate/review/engine.py:379 | a line strips to nothing exactly when it is all white space |
| Text.SplitWs | impact_engine_evaluate/review/knowledge/static.py:56 | `str.split()` yields non-empty words without white space |
| Text.SplitWsChars | impact_engine_evaluate/review/knowledge/static.py:56 | `str.split()` drops exactly the white space: its words, one after the other, are the text's non-space characters in order |
| Text.SplitWsJoin | impact_engine_evaluate/review/knowledge/static.py:56 | splitting non-empty, space-free words joined by single spaces gives the words back |
| Text.SplitWsAfterWord | impact_engine_evaluate/review/knowledge/static.py:56 | a word followed by nothing or by white space splits off as one word, so white space separates words |
| Text.SplitOn | impact_engine_evaluate/review/engine.py:49 | `str.split(sep)` yields at least one part and no part holds the separator |
| Text.JoinSplitOn | impact_engine_evaluate/review/engine.py:49 | joining the parts of a split with the separator gives the text back |
| Text.SplitOnJoin | impact_engine_evaluate/review/engine.py:49 | splitting a join of separator-free parts gives the parts back |
| Text.Partition | impact_engine_evaluate/review/engine.py:405 | `str.partition` splits at the first separator, and a text without one is all head |
| Text.Lower | impact_engine_evaluate/review/knowledge/static.py:56 | `lower()` maps every character and keeps the length |
| Text.Repr | impact_engine_evaluate/api.py:58 | `repr` of a string is delimited by one kind of quote at both ends, double quotes exactly when the text holds a single quote and no double quote, and the text between the quotes unescapes to the input |
| Text.EscapeChar | impact_engine_evaluate/api.py:58 | a character is written as itself exactly when its escape does not start with a backslash |
| Text.UnescapeEscape | impact_engine_evaluate/api.py:58 | reading back the escapes `repr` writes (`\\`, the quote, `\n`, `\r`, `\t` and `\xNN`) gives the original text |
| Text.Join | impact_engine_evaluate/review/backends/anthropic_backend.py:87 | one part joins to itself and no parts to `""`; with Text.JoinSplitOn and Text.SplitOnJoin, joining separator-free parts is the inverse of splitting |
| Text.ReprPlain | impact_engine_evaluate/review/methods/base.py:118 | a name without quotes or backslashes is shown between single quotes |
| Numbers.Clamp01 | impact_engine_evaluate/review/engine.py:290 | `max(0.0, min(1.0, x))` lies in [0, 1], is `x` inside it and the nearer bound outside |
| Numbers.ParseDecimal | impact_engine_evaluate/review/engine.py:284-287 | `float()` of a digits-and-dots text succeeds exactly when it has at most one dot and at least one digit |
| Numbers.DecimalTextRoundTrip | impact_engine_evaluate/review/engine.py:284 | a decimal written with k fraction digits parses to n / 10^k |
| Numbers.MeanBounds | impact_engine_evaluate/review/engine.py:338 | the mean of a non-empty list lies within any bounds its items share |
| Json.Get | impact_engine_evaluate/config.py:71 | `dict.get(key, default)` |
| Json.PyFloat | impact_engine_evaluate/job_reader.py:56 | `float(v)`: numbers and booleans convert, None and containers raise `TypeError` |
| Json.FloatOfText | impact_engine_evaluate/config.py:76 | a text `float()` rejects raises `ValueError` with Python's message |
| Json.FloatOfPlainText | impact_engine_evaluate/config.py:76 | a plain decimal converts to its value |
| Json.FloatOfDecimalText | impact_engine_evaluate/job_reader.py:56 | `float()` of a written decimal n / 10^k gives it back |
| Json.Trunc | impact_engine_evaluate/config.py:77 | `int()` of a float truncates toward zero |
| Json.PyInt | impact_engine_evaluate/job_reader.py:60 | `int(v)`: integers and booleans convert, None and containers raise `TypeError` |
| Json.IntOfText | impact_engine_evaluate/config.py:77 | a text `int()` rejects raises `ValueError` with Python's message |
| Json.IntOfNatText | impact_engine_evaluate/job_reader.py:60 | `int(str(n))` is n |
| Json.IntOfIntText | impact_engine_evaluate/config.py:77 | `int()` of a written signed integer gives it back |
| Json.PyStr | impact_engine_evaluate/review/engine.py:441 | `str()` of a string is the string |
| Registry.Available | impact_engine_evaluate/review/methods/base.py:122-125 | `available()` lists every registered name once, sorted |
| Registry.AvailableText | impact_engine_evaluate/review/methods/base.py:117 | the list in an error message is never empty and is `(none)` for an empty registry |
| Registry.Lookup | impact_engine_evaluate/review/methods/base.py:116-120 | a registered name gives its entry, and any other raises `KeyError` naming it and the sorted names |
| Registry.Register | impact_engine_evaluate/review/methods/base.py:90-92 | registering adds the name, stores the entry and keeps every other entry |
| Registry.RegisterThenLookup | impact_engine_evaluate/review/backends/base.py:69-73 | a name just registered looks up to its entry, and other names look up as before |
| Registry.RegisterIdempotent | impact_engine_evaluate/review/methods/base.py:91 | registering the same entry twice is registering it once |
| Registry.RegisterOverwrites | impact_engine_evaluate/review/methods/base.py:91 | the later of two registrations under one name wins |
| Backends.Create | impact_engine_evaluate/review/backends/base.py:95-99 | an unknown backend raises `KeyError` with the sorted names, and a known one is built from the keyword arguments |
| Backends.SettingsOf | impact_engine_evaluate/review/backends/anthropic_backend.py:36-47 | an unknown keyword raises `TypeError`; model and max_tokens default as the constructor says |
| Backends.SystemParts | impact_engine_evaluate/review/backends/anthropic_backend.py:77 | there are no more system parts than messages |
| Backends.SystemPartsContents | impact_engine_evaluate/review/backends/anthropic_backend.py:77 | every system part is the content of a system message, and every system message's content is a system part |
| Backends.SplitAppend | impact_engine_evaluate/review/backends/anthropic_backend.py:77-78 | both filters keep order: splitting two message lists one after the other splits their concatenation |
| Backends.ChatMessages | impact_engine_evaluate/review/backends/anthropic_backend.py:78 | the chat messages are input messages whose role is not `system` |
| Backends.SplitIsPartition | impact_engine_evaluate/review/backends/anthropic_backend.py:77-78 | every message is either a system part or a chat message, and without system messages the chat is the input |
| Backends.BuildRequest | impact_engine_evaluate/review/backends/anthropic_backend.py:77-88 | model and max_tokens fall back when falsy, temperature passes through, and `system` is present exactly when there are system parts, joined by a blank line |
| Backends.Anthropic | impact_engine_evaluate/review/backends/anthropic_backend.py:36-91 | without the package the constructor raises `ImportError`; a built backend sends the request to the client |
| Backends.AutoRegistered | impact_engine_evaluate/review/backends/__init__.py:11-22 | after auto-registration the registry holds `anthropic`, `openai` and `litellm`, whether or not their SDKs are installed; `anthropic` builds the Anthropic backend |
| Backends.AutoRegisteredAvailable | impact_engine_evaluate/review/backends/base.py:95-105 | after auto-registration `available()` is `["anthropic", "litellm", "openai"]`, and an unknown backend's `KeyError` lists `anthropic, litellm, openai` |
| Backends.UnknownOfThree | impact_engine_evaluate/review/backends/base.py:95-105 | any registry of exactly those three names lists them sorted, and an unknown name's `KeyError` says so |
| Sorting.SortedThree | impact_engine_evaluate/review/backends/base.py:96 | three distinct names in increasing order are the only strictly sorted listing of themselves |
| Backends.SystemAndUser | impact_engine_evaluate/review/backends/anthropic_backend.py:77-87 | a system plus a user message becomes the system text and the user message alone |
| Config.LoadYamlFile | impact_engine_evaluate/config.py:84-93 | without PyYAML the loader raises `ImportError`, and `or {}` maps an empty document to `{}` |
| Config.RawConfig | impact_engine_evaluate/config.py:62-69 | a dict is used as is; None or a path that is not a file gives `{}` |
| Config.EnvOr | impact_engine_evaluate/config.py:74-77 | an environment variable wins over the fallback |
| Config.ConfigOf | impact_engine_evaluate/config.py:71-81 | each setting is the environment, else the backend dict, else the default; `extra` is the dict minus the four named keys |
| Config.LoadConfig | impact_engine_evaluate/config.py:49-81 | a failure reading the source propagates |
| Config.DefaultsWithoutSource | impact_engine_evaluate/config.py:29-33 | with no source and no environment the defaults come out |
| Config.EnvironmentWins | impact_engine_evaluate/config.py:75 | `REVIEW_BACKEND_MODEL` overrides whatever the source says |
| Config.ExtraKeepsTheRest | impact_engine_evaluate/config.py:78 | every other backend key reaches `extra` unchanged |
| Models.NewReviewResult | impact_engine_evaluate/review/models.py:53-61 | a new `ReviewResult` has no dimensions, overall 0.0 and empty reply and timestamp |
| Models.FromEvent | impact_engine_evaluate/review/models.py:88-110 | a missing `initiative_id` or `artifact_text` raises `KeyError`; the defaults are `""` and 0; the metadata is the rest of the event |
| Models.FromToEvent | impact_engine_evaluate/review/models.py:103-110 | a payload whose metadata avoids the four known keys survives a trip through an event |
| Models.ToFromEvent | impact_engine_evaluate/review/models.py:103-110 | an event with all four keys survives a trip through a payload |
| Manifest.RequireFields | impact_engine_evaluate/review/manifest.py:91-95 | `schema_version` is checked before `model_type`, and the first one missing raises `ValueError` naming it |
| Manifest.EntryOf | impact_engine_evaluate/review/manifest.py:99 | a file entry needs `path` and `format` and keeps both; a missing `path` is `KeyError`, and a list or string entry raises the `TypeError` CPython gives for a `str` index |
| Manifest.EntryRoundTrip | impact_engine_evaluate/review/manifest.py:133 | the dict `update_manifest` writes for an entry reads back as that entry |
| Manifest.FileEntries | impact_engine_evaluate/review/manifest.py:97-99 | `files` reads exactly when every entry does, keeping the keys, and a failure is the failure of one of the entries |
| Manifest.ParseManifest | impact_engine_evaluate/review/manifest.py:91-112 | the fields come from the dict, with `created_at` defaulting to `""`, `evaluate_strategy` to `agentic` and `initiative_id` to the directory name; each file entry is the one its dict reads as |
| Manifest.ManifestRoundTrip | impact_engine_evaluate/review/manifest.py:97-112 | a manifest written as JSON parses back to itself |
| Manifest.LoadManifest | impact_engine_evaluate/review/manifest.py:62-112 | a missing file raises `FileNotFoundError("Manifest not found: ...")`, invalid JSON raises a decode error, and otherwise the parsed dict decides |
| Manifest.StrategyDefaultsToAgentic | impact_engine_evaluate/review/manifest.py:111 | a manifest without `evaluate_strategy` gets `agentic` |
| Manifest.AddEntry | impact_engine_evaluate/review/manifest.py:130-137 | `files[key]` is set, `files` is created if absent, and every other key is kept; a list `files` raises the `TypeError` for a `str` index |
| Manifest.UpdateManifest | impact_engine_evaluate/review/manifest.py:115-139 | a successful update leaves a manifest file and no new directory |
| Manifest.UpdateThenLoad | impact_engine_evaluate/review/manifest.py:115-139 | after `update_manifest` the manifest loads as before with `files[key]` replaced |
| Manifest.FileEntriesUpdate | impact_engine_evaluate/review/manifest.py:133 | adding an entry's dict adds that entry and changes no other |
| Methods.WithQuasiExperimental | impact_engine_evaluate/review/methods/quasi_experimental/reviewer.py:12-34 | importing the quasi-experimental module adds `quasi_experimental` and keeps the rest |
| Methods.Create | impact_engine_evaluate/review/methods/base.py:97-120 | the corrected `create`: a registered method gives its reviewer, and any other raises `KeyError("Unknown method ...")` |
| Methods.CreateAsWritten | impact_engine_evaluate/review/methods/base.py:33-120 | `create` as written: an unknown name fails as in the corrected version; a registered reviewer class is instantiated exactly when it defines `load_artifact`, and otherwise Python raises `TypeError` for the abstract method |
| Methods.BuiltinsNotInstantiable | impact_engine_evaluate/review/methods/experiment/reviewer.py:12-26 | the built-in registry holds exactly `experiment` and `quasi_experimental`, neither defines `load_artifact`, so as written `create` fails for every name, with `TypeError` naming the class for the two registered ones |
| Methods.BuiltinsWellFormed | impact_engine_evaluate/review/methods/experiment/reviewer.py:23-26 | each built-in reviewer is registered under its name and has a range with 0 <= lo < hi <= 1 |
| Methods.QuasiNotAutoRegistered | impact_engine_evaluate/review/methods/__init__.py:10-21 | the auto-registered registry does not know `quasi_experimental` and lists only `experiment` |
| JobReader.EventOf | impact_engine_evaluate/job_reader.py:53-61 | the event has exactly the seven keys: the id from the manifest or the directory, the model type, and the numbers converted with 0 defaults |
| JobReader.ToFloat | impact_engine_evaluate/job_reader.py:56 | a value converts exactly when `float()` accepts it |
| JobReader.ToInt | impact_engine_evaluate/job_reader.py:60 | a value converts exactly when `int()` accepts it |
| JobReader.LoadScorerEvent | impact_engine_evaluate/job_reader.py:15-68 | a missing `impact_results.json` raises `FileNotFoundError("Impact results not found: ...")`; overrides win and other keys keep their file values |
| JobReader.NoOverridesNoChange | impact_engine_evaluate/job_reader.py:63-64 | with no overrides the event is the one built from the file |
| JobReader.CostOverride | impact_engine_evaluate/job_reader.py:63-64 | overriding `cost_to_scale` changes only that key |
| JobReader.OverridesApplied | impact_engine_evaluate/job_reader.py:63-64 | the event is the file's event updated with the overrides |
| Scorer.StableSeed | impact_engine_evaluate/score/scorer.py:33-35 | the seed lies in [0, 2^32) and is the digest modulo 2^32 |
| Scorer.Uniform | impact_engine_evaluate/score/scorer.py:55 | `lo + (hi - lo) * u` with u in [0, 1) lies between the bounds, and equals them when they meet |
| Scorer.ScoreConfidence | impact_engine_evaluate/score/scorer.py:38-60 | the result echoes id and range, and the confidence is the seeded draw, within the range |
| Scorer.SameSeedSameScore | impact_engine_evaluate/score/scorer.py:53-55 | ids with the same seed get the same confidence |
| Scorer.ScoreResultRoundTrip | impact_engine_evaluate/api.py:155-158 | `score_result.json`'s dict reads back as the result |
| LegacyScorer.FirstMissing | impact_engine_evaluate/scorer.py:50-59 | the position found is the first key the event lacks |
| LegacyScorer.ScoreInitiative | impact_engine_evaluate/scorer.py:28-60 | `score_initiative` fails exactly on a missing or non-string id or a missing field; the output renames the event's fields as the code does |
| LegacyScorer.LegacyConfidenceInRange | impact_engine_evaluate/scorer.py:46-48 | the legacy confidence lies within the range |
| LegacyScorer.MissingCostReportedFirst | impact_engine_evaluate/scorer.py:53 | a missing `cost_to_scale` raises `KeyError('cost_to_scale')` |
| MiniYaml.Lines | impact_engine_evaluate/review/engine.py:376-377 | no line holds a newline |
| MiniYaml.Flush | impact_engine_evaluate/review/engine.py:371-373 | an open block under a non-empty key is stored as its lines joined by newlines, and nothing else changes |
| MiniYaml.InBlock | impact_engine_evaluate/review/engine.py:382-402 | inside a block a line is either consumed or closes the block by flushing it |
| MiniYaml.ListItems | impact_engine_evaluate/review/engine.py:413-414 | an inline list keeps only non-empty text items, at most one per part |
| MiniYaml.KeyLine | impact_engine_evaluate/review/engine.py:404-418 | a key line makes its stripped head the current key |
| MiniYaml.ScalarKeyLine | impact_engine_evaluate/review/engine.py:418 | a scalar value is stored stripped and unquoted under its key |
| MiniYaml.LoadWellTyped | impact_engine_evaluate/review/engine.py:359-424 | the loader yields only strings and lists of strings |
| MiniYaml.EngineAgreesWithRegistry | impact_engine_evaluate/review/prompts/registry.py:27-95 | wherever the registry's copy succeeds, the engine's copy gives the same mapping |
| MiniYaml.LeadingListItem | impact_engine_evaluate/review/prompts/registry.py:91-92 | a list item before any key line fails in the registry's copy and is skipped by the engine's |
| MiniYaml.BlockListNotParsed | impact_engine_evaluate/review/engine.py:404-421 | `dimensions:` followed by an indented `- item` gives `dimensions: ""` |
| Prompts.LoadYaml | impact_engine_evaluate/review/engine.py:348-356 | PyYAML when present (`or {}`), else the minimal loader; a missing file fails |
| Prompts.TextOr | impact_engine_evaluate/review/prompts/registry.py:104 | a missing key gives the default, and a string value is used |
| Prompts.DimensionsOf | impact_engine_evaluate/review/prompts/registry.py:100-102 | a comma string is split and each part stripped; a list of strings is kept; a missing key gives `[]` |
| Prompts.SpecFromDict | impact_engine_evaluate/review/prompts/registry.py:98-110 | every field is read with its default: `unknown`, `str(version)` or `0.0`, and `""` |
| Prompts.LoadPromptSpec | impact_engine_evaluate/review/engine.py:25-57 | a missing file raises `FileNotFoundError("Prompt template not found: ...")`, and otherwise the spec is built from the loaded dict |
| Prompts.SpecRoundTrip | impact_engine_evaluate/review/prompts/registry.py:98-110 | a spec written as a dict reads back as itself |
| Prompts.CommaDimensions | impact_engine_evaluate/review/engine.py:48-49 | comma-joined trimmed names split back into the names |
| Prompts.YamlNames | impact_engine_evaluate/review/prompts/registry.py:133 | the `*.yaml` names of a directory, each once, sorted |
| Prompts.ScanFiles | impact_engine_evaluate/review/prompts/registry.py:133-136 | scanning only adds specs and keeps each under its own name |
| Prompts.Scan | impact_engine_evaluate/review/prompts/registry.py:128-137 | a missing directory is skipped, and a scan only adds specs under their own names |
| Prompts.NewPromptRegistry | impact_engine_evaluate/review/prompts/registry.py:122-126 | the registry keeps every spec under its own name |
| Prompts.GetPrompt | impact_engine_evaluate/review/prompts/registry.py:139-160 | a known name gives its spec, and any other raises `KeyError("Unknown prompt ...")` |
| Prompts.RegisterPrompt | impact_engine_evaluate/review/prompts/registry.py:166-174 | the spec is found under its name afterwards, and other specs are kept |
| Prompts.MissingExtraDirsSkipped | impact_engine_evaluate/review/prompts/registry.py:130-132 | extra directories that do not exist change nothing |
| Render.SubOpen | impact_engine_evaluate/review/prompts/renderer.py:52 | the rewrite never lengthens the text, and a text without `{` is unchanged |
| Render.SubClose | impact_engine_evaluate/review/prompts/renderer.py:53 | the rewrite never lengthens the text |
| Render.SubCloseBraceFree | impact_engine_evaluate/review/prompts/renderer.py:53 | a text without `}` is unchanged by the closing rewrite |
| Render.SubCloseCopies | impact_engine_evaluate/review/prompts/renderer.py:53 | characters that are not blank, `-` or `}` pass through the closing rewrite unchanged |
| Render.SubTags | impact_engine_evaluate/review/prompts/renderer.py:55 | removing tags never lengthens the text, and a text without `{` or without `%` is unchanged |
| Render.Convert | impact_engine_evaluate/review/prompts/renderer.py:52-55 | a template without braces is unchanged by the three rewrites |
| Render.Format | impact_engine_evaluate/review/prompts/renderer.py:57 | a `KeyError` names a non-empty field that is not among the variables |
| Render.TagEnd | impact_engine_evaluate/review/prompts/renderer.py:55 | the end found is the first `%}` on the tag's line, and none is reported only when there is none |
| Render.RenderTemplate | impact_engine_evaluate/review/prompts/renderer.py:39-59 | an empty template renders to `""`; Jinja2 renders when present; otherwise the converted template is formatted, and a missing variable gives it unformatted |
| Render.RenderMessages | impact_engine_evaluate/review/engine.py:60-85 | a system then a user message, each only when its text is non-empty |
| Render.FormatBraceFree | impact_engine_evaluate/review/prompts/renderer.py:57 | a text without braces formats to itself |
| Render.FormatEscaped | impact_engine_evaluate/review/prompts/renderer.py:57 | a text with doubled braces formats to the original text |
| Render.FormatField | impact_engine_evaluate/review/prompts/renderer.py:57 | a placeholder is replaced by `str()` of its variable |
| Render.FormatMissing | impact_engine_evaluate/review/prompts/renderer.py:57-58 | a placeholder without a variable raises `KeyError` naming it |
| Render.FormatConversionAtEnd | impact_engine_evaluate/review/prompts/renderer.py:57-58 | a field ending in `!` is a `ValueError` from parsing, raised whether or not the variable exists, so the fallback does not catch it |
| Render.ConvertPlaceholder | impact_engine_evaluate/review/prompts/renderer.py:52-53 | `{{ x }}` becomes `{x}` |
| Render.RenderPlaceholder | impact_engine_evaluate/review/prompts/renderer.py:52-59 | without Jinja2, `{{ x }}` renders to `str(x)`, or to `{x}` when x is not given |
| Knowledge.NamesEndingIn | impact_engine_evaluate/review/engine.py:105-106 | the names in a directory with the suffix, each once, sorted |
| Knowledge.Contents | impact_engine_evaluate/review/engine.py:107 | the contents of the listed files, in order |
| Knowledge.LoadKnowledge | impact_engine_evaluate/review/engine.py:88-111 | a missing or empty directory gives `""`, and a single file gives its text |
| Knowledge.LoadDocs | impact_engine_evaluate/review/knowledge/static.py:31-40 | a missing directory loads nothing; otherwise one document per file, in the same order as `load_knowledge` |
| Knowledge.LoadKnowledgeIsDocs | impact_engine_evaluate/review/knowledge/static.py:31-40 | `load_knowledge` is the documents' contents joined by the divider |
| Knowledge.ScoreDocs | impact_engine_evaluate/review/knowledge/static.py:60-66 | only documents with overlap > 0 are kept, with their overlap |
| Knowledge.ScoreDocsComplete | impact_engine_evaluate/review/knowledge/static.py:60-66 | every document with overlap > 0 is kept |
| Knowledge.Insert | impact_engine_evaluate/review/knowledge/static.py:68 | inserting keeps a descending list descending and adds one element |
| Knowledge.SortDescending | impact_engine_evaluate/review/knowledge/static.py:68 | the sort is a descending permutation |
| Knowledge.SortStable | impact_engine_evaluate/review/knowledge/static.py:68 | documents with equal overlap keep their load order |
| Knowledge.PySlice | impact_engine_evaluate/review/knowledge/static.py:69 | `s[:k]`, including a negative k |
| Knowledge.RatioUnit | impact_engine_evaluate/review/knowledge/static.py:64 | overlap over the query's token count lies in (0, 1] |
| Knowledge.ChunksOf | impact_engine_evaluate/review/knowledge/static.py:69 | each chunk carries its document's content and source and a score in (0, 1], in descending order |
| Knowledge.Retrieve | impact_engine_evaluate/review/knowledge/static.py:42-69 | no tokens gives `[]`; at most `top_k` chunks, each from a document that overlaps the query, scored exactly its overlap over the number of query tokens, in (0, 1] and descending |
| Knowledge.RetrieveTopK | impact_engine_evaluate/review/knowledge/static.py:64-69 | an overlapping document is left out only when `top_k` chunks came back, each sharing at least as many tokens with the query |
| Knowledge.RetrieveStable | impact_engine_evaluate/review/knowledge/static.py:68-69 | the chunks sharing k tokens are a prefix of the documents sharing k tokens, in load order |
| Knowledge.RankedIndex | impact_engine_evaluate/review/knowledge/static.py:64-68 | an overlapping document appears in the ranking with its overlap |
| Knowledge.RetrievePicked | impact_engine_evaluate/review/knowledge/static.py:69 | the chunks are those of the first `top_k` ranked documents, in order |
| Knowledge.CutBehind | impact_engine_evaluate/review/knowledge/static.py:69 | a ranked document no chunk carries sits behind the cut, so the cut is full and every chunk ranks at least as high |
| Knowledge.ScoreDocsTies | impact_engine_evaluate/review/knowledge/static.py:61-66 | the scored documents sharing k tokens are the documents sharing k tokens, in order |
| Knowledge.WithOverlapPrefix | impact_engine_evaluate/review/knowledge/static.py:69 | cutting the ranking keeps a prefix of each overlap's documents |
| Knowledge.ChunkTies | impact_engine_evaluate/review/knowledge/static.py:69 | the chunks sharing k tokens carry the picked documents sharing k tokens, in order |
| Knowledge.RetrieveComplete | impact_engine_evaluate/review/knowledge/static.py:42-69 | with `top_k` at least the number of documents, every overlapping document is returned |
| LazyRegistry.EnsureDefaults | impact_engine_evaluate/review/prompt_registry.py:18-26 | the first load installs the defaults over any entry of the same name and keeps the others; later loads change nothing |
| LazyRegistry.Register | impact_engine_evaluate/review/prompt_registry.py:29-39 | registering maps the name to the path and leaves the flag alone |
| LazyRegistry.Find | impact_engine_evaluate/review/prompt_registry.py:60-64 | after loading the defaults, a registered name gives its path, and any other raises `KeyError("... not registered ...")` |
| LazyRegistry.List | impact_engine_evaluate/review/prompt_registry.py:68-76 | after loading the defaults, the sorted names |
| LazyRegistry.Clear | impact_engine_evaluate/review/prompt_registry.py:79-86 | clearing empties the map and resets the flag |
| LazyRegistry.LoadPrompt | impact_engine_evaluate/review/prompt_registry.py:43-65 | a registered name's path is loaded as a prompt spec, and any other raises `KeyError` |
| LazyRegistry.LoadKnowledgeBase | impact_engine_evaluate/review/knowledge_registry.py:40-63 | a registered name's directory is loaded as knowledge, and any other raises `KeyError` |
| LazyRegistry.EnsureDefaultsIdempotent | impact_engine_evaluate/review/knowledge_registry.py:17-23 | loading the defaults twice is loading them once |
| LazyRegistry.RegisterThenFind | impact_engine_evaluate/review/knowledge_registry.py:26-36 | a name registered after the defaults, or outside them, is found |
| LazyRegistry.DefaultsAlwaysListed | impact_engine_evaluate/review/prompt_registry.py:75-76 | every built-in name is listed |
| LazyRegistry.ClearedListsDefaults | impact_engine_evaluate/review/knowledge_registry.py:82-84 | after `clear` each registry lists exactly its two built-ins |
| LazyRegistry.EarlyRegistrationOverwritten | impact_engine_evaluate/review/prompt_registry.py:21-26 | a path registered under a built-in name before the first load is replaced by the built-in |
| Parser.JustEnd | impact_engine_evaluate/review/engine.py:279 | the lazy `.+?` ends at the first offset where the look-ahead holds |
| Parser.JustificationAt | impact_engine_evaluate/review/engine.py:279 | the field matches exactly when the text starts with `JUSTIFICATION:` and goes on; the justification is stripped and what follows is empty or a newline before `DIMENSION:` or `OVERALL:` |
| Parser.MatchAt | impact_engine_evaluate/review/engine.py:276-281 | a block match captures a non-empty space-free name, a digits-and-dots score and a trimmed justification, and moves forward |
| Parser.Scan | impact_engine_evaluate/review/engine.py:282 | every match `finditer` yields is a well-formed capture |
| Parser.TextDimensions | impact_engine_evaluate/review/engine.py:282-293 | one dimension per match, in order, with its name and justification, and a score that is the clamped `float()` of the match, or 0.0 where `float()` fails |
| Parser.FromItems | impact_engine_evaluate/review/engine.py:302-309 | each JSON item gives a dimension with defaults `unknown`, 0.0 and `""`; a `TypeError` on a score stops the list there; a non-dict item raises `AttributeError` |
| Parser.JsonFallback | impact_engine_evaluate/review/engine.py:298-311 | invalid JSON or no `dimensions` key gives `[]`, and a non-empty result comes from the `dimensions` array |
| Parser.ParseDimensions | impact_engine_evaluate/review/engine.py:257-313 | text blocks win when there are any, else the JSON fallback; every score lies in [0, 1] |
| Parser.FindOverall | impact_engine_evaluate/review/engine.py:330 | the number found after `OVERALL:` is non-empty digits and dots |
| Parser.MeanScore | impact_engine_evaluate/review/engine.py:337-340 | the mean of unit scores lies in [0, 1] |
| Parser.ParseOverall | impact_engine_evaluate/review/engine.py:316-340 | an `OVERALL:` number that parses wins, clamped; a found number that `float()` rejects, or none, gives the mean of the dimensions; always in [0, 1] |
| Parser.ScanReply | impact_engine_evaluate/review/engine.py:282 | a reply written block by block scans back to its blocks |
| Parser.DimensionsRoundTrip | impact_engine_evaluate/review/engine.py:276-296 | a written reply parses back to its dimensions |
| Parser.ScoreRoundTrip | impact_engine_evaluate/review/engine.py:284-290 | a written score in [0, 1] parses back to its value |
| Parser.OverallRoundTrip | impact_engine_evaluate/review/engine.py:330-335 | a written `OVERALL:` line decides the overall score |
| Parser.ReplyRoundTrip | tests/test_engine.py:21-35 | a reply in the format the tests use parses back to its dimensions and its overall score |
| Parser.NoOverallLine | impact_engine_evaluate/review/engine.py:337-340 | without `OVERALL:` the overall score is the mean, and 0.0 with no dimensions |
| Parser.JsonRoundTrip | impact_engine_evaluate/review/engine.py:298-309 | a JSON reply without text blocks parses back to its dimensions |
| Parser.ItemsRoundTrip | impact_engine_evaluate/review/engine.py:302-309 | dimensions written as JSON items read back as themselves |
| Parser.NullScoreStops | impact_engine_evaluate/review/engine.py:306-310 | a null score raises `TypeError` and keeps the dimensions already read |
| Results.DimensionsRoundTrip | impact_engine_evaluate/review/api.py:126 | dimensions written as JSON read back as themselves |
| Results.ReviewResultRoundTrip | impact_engine_evaluate/review/api.py:126 | `review_result.json`'s dict reads back as the result |
| Results.EvaluateResultRoundTrip | impact_engine_evaluate/api.py:165 | `evaluate_result.json`'s dict reads back as the result |
| Engine.CreateBackend | impact_engine_evaluate/review/engine.py:164-168 | `model` in `extra` raises `TypeError`, and so does `name`; otherwise the backend is created with the model added |
| Engine.FromConfig | impact_engine_evaluate/review/engine.py:148-175 | a configuration failure propagates; the engine holds the backend created from the configuration and its defaults |
| Engine.Variables | impact_engine_evaluate/review/engine.py:209-215 | the four payload variables, each overridden by a metadata key of the same name |
| Engine.OrModel | impact_engine_evaluate/review/engine.py:219 | `x or y` on an optional string |
| Engine.Args | impact_engine_evaluate/review/engine.py:219-225 | the model and max_tokens overrides apply when truthy, the temperature override whenever given |
| Engine.UsedModel | impact_engine_evaluate/review/engine.py:219 | the recorded model is the one used, else `""` |
| Engine.Review | impact_engine_evaluate/review/engine.py:177-249 | a render or backend failure propagates; the result carries the reply verbatim, its parsed dimensions and overall score in [0, 1], the artifact's id, the spec's name and version, the backend name and the model used |
| Engine.ModelInExtraRejected | impact_engine_evaluate/review/engine.py:164-168 | a configuration with `model` in `extra` never builds an engine |
| Engine.DefaultEngine | impact_engine_evaluate/config.py:29-33 | with nothing configured the engine uses Anthropic, the default model and 4096 tokens |
| Engine.ReviewOfReply | impact_engine_evaluate/review/engine.py:227-241 | the review records the backend's reply and what the parser reads from it |
| Engine.ReviewOfUnreadableReply | impact_engine_evaluate/review/engine.py:310-313 | a reply with no blocks, no JSON and no `OVERALL:` gives no dimensions and overall 0.0 |
| ReviewApi.Loaded | impact_engine_evaluate/review/api.py:62-64 | the configuration and then the manifest load, and the first failure propagates |
| ReviewApi.PrepareAsWritten | impact_engine_evaluate/review/api.py:61-68 | preparation with `create` as written: a load failure propagates, a `TypeError` from `create` propagates, and success agrees with the corrected preparation |
| ReviewApi.PrepareAsWrittenAbstract | impact_engine_evaluate/review/api.py:67 | when no registered reviewer defines `load_artifact`, preparation as written always fails, with `TypeError` once the inputs load and the model type is registered |
| ReviewApi.PrepareAsWrittenFails | impact_engine_evaluate/review/api.py:67 | with the built-in reviewers, preparation as written always fails |
| ReviewApi.Prepare | impact_engine_evaluate/review/api.py:61-68 | the configuration is loaded, then the manifest, then the reviewer looked up, then the artifact loaded; the first failure propagates |
| ReviewApi.ComputeReviewAsWritten | impact_engine_evaluate/review/api.py:62-70 | `compute_review` as written always fails, with `AttributeError` once the inputs load |
| ReviewApi.MethodSection | impact_engine_evaluate/review/api.py:70 | the model type's section of `methods`, `{}` when absent |
| ReviewApi.NamedIn | impact_engine_evaluate/review/api.py:73 | a configured name counts only when it is a non-empty string |
| ReviewApi.TemplatePath | impact_engine_evaluate/review/api.py:80 | `template_dir / (prompt_name + ".yaml")` |
| ReviewApi.PromptFor | impact_engine_evaluate/review/api.py:72-80 | a configured prompt comes from the registry; otherwise the method's template, and no template directory raises `FileNotFoundError` |
| ReviewApi.KnowledgeFor | impact_engine_evaluate/review/api.py:82-87 | a configured knowledge base comes from the registry; otherwise the method's knowledge directory, and none gives `""` |
| ReviewApi.ReviewPrepared | impact_engine_evaluate/review/api.py:70-90 | the review carries the artifact's id, unit scores and an overall score in [0, 1]; at most the defaults of each registry are loaded |
| ReviewApi.ComputeReview | impact_engine_evaluate/review/api.py:23-90 | a preparation failure propagates; otherwise the review of the prepared inputs |
| ReviewApi.ResultPath | impact_engine_evaluate/review/api.py:124 | `job_dir / "review_result.json"` |
| ReviewApi.ReviewJob | impact_engine_evaluate/review/api.py:93-128 | `review` writes `review_result.json` only after `compute_review` succeeds and returns that result |
| ReviewApi.AsWrittenNeverReviews | impact_engine_evaluate/review/api.py:62 | even where the corrected `compute_review` succeeds, the code as written fails |
| ReviewApi.NoMethodsLeavesRegistries | impact_engine_evaluate/review/api.py:70-87 | without a `methods` section neither registry is touched |
| ReviewApi.ReviewJobScoreUnit | impact_engine_evaluate/review/api.py:127 | a review's overall score lies in [0, 1] |
| ReviewApi.ReviewFileReadsBack | impact_engine_evaluate/review/api.py:125-126 | `review_result.json` reads back as the returned result |
| Evaluate.Route | impact_engine_evaluate/api.py:35-61 | an unknown strategy raises `ValueError` before the reviewer lookup; a known strategy succeeds exactly when the model type is registered, and gives the strategy and its reviewer |
| Evaluate.RouteAsWritten | impact_engine_evaluate/api.py:56-61 | `route` with `create` as written: an unknown strategy fails as before, a known one fails exactly when `create` does, and success agrees with the corrected route |
| Evaluate.RouteAsWrittenFails | impact_engine_evaluate/api.py:60 | with the built-in reviewers every known strategy fails as written, with `TypeError` for the two registered model types, where the corrected route succeeds exactly for them |
| Evaluate.Overrides | impact_engine_evaluate/api.py:109-111 | `cost_to_scale` is overridden exactly when it is given |
| Evaluate.WriteJson | impact_engine_evaluate/api.py:162-166 | writing a result succeeds exactly when the directory exists |
| Evaluate.ScoreStrategy | impact_engine_evaluate/api.py:118-122 | the score strategy writes `score_result.json`, its confidence is the seeded draw within the range, and its report is the range text |
| Evaluate.ReviewStrategy | impact_engine_evaluate/api.py:123-128 | the review strategy's confidence is the overall score and its report is the review |
| Evaluate.RouteJob | impact_engine_evaluate/api.py:103-115 | the manifest is loaded, then routed, then the scorer event is built with the overrides; the first failure propagates; a reviewer without `confidence_range` raises the `AttributeError` naming its class; the id is the event's `initiative_id` |
| Evaluate.ScorerEventId | impact_engine_evaluate/job_reader.py:52-63 | the scorer event's `initiative_id` is the manifest's id or the job directory's name, whatever `cost_to_scale` override is given |
| Evaluate.Strategy | impact_engine_evaluate/api.py:117-128 | `score` takes the score path and leaves the registries alone; anything else takes the review path |
| Evaluate.Finish | impact_engine_evaluate/api.py:136-144 | the result has the event's id, the reviewer's range, the strategy and its confidence and report, and is written to `evaluate_result.json` |
| Evaluate.EvaluateWith | impact_engine_evaluate/api.py:64-152 | a routing failure propagates and writes nothing; a result echoes id, strategy and range, and carries the text report (score) or the review with its overall score (review) |
| Evaluate.AgenticRejected | impact_engine_evaluate/api.py:56-59 | a manifest with the default strategy `agentic` is rejected with `ValueError` |
| Evaluate.ScoreIgnoresReview | impact_engine_evaluate/api.py:118-122 | under the score strategy no review step affects the outcome |
| Evaluate.ScoreWithinRange | impact_engine_evaluate/api.py:119-121 | a score-strategy confidence lies within the reviewer's range |
| Evaluate.ReviewWithinUnit | impact_engine_evaluate/api.py:126-127 | a successful review's overall score lies in [0, 1] |
| Evaluate.OutcomeOf | impact_engine_evaluate/api.py:117-152 | for any review step with unit overall scores, a successful run has a known strategy, a confidence within the range (score) or in [0, 1] (review), and an `evaluate_result.json` that reads back as the result |
| Evaluate.EvaluateConfidence | impact_engine_evaluate/api.py:64-152 | a successful `evaluate_confidence` has a known strategy, a confidence within the reviewer's range (score) or in [0, 1] (review), and writes an `evaluate_result.json` that reads back as the result |
| Evaluate.WrittenResultReadsBack | impact_engine_evaluate/api.py:162-166 | the written result file reads back as the result |
| Evaluate.EvaluateFileReadsBack | impact_engine_evaluate/api.py:144 | `evaluate_result.json` reads back as the returned result |
| Evaluate.ManifestUntouched | impact_engine_evaluate/api.py:118-144 | neither strategy writes `manifest.json` |
| Evaluate.ReviewLeavesManifest | impact_engine_evaluate/review/api.py:124-126 | `review` writes only `review_result.json`, so `manifest.json` is unchanged |

## Left out

- File I/O, encodings, JSON and YAML text formats: a file is its text as text-mode reading yields it, after universal-newline translation (`\r\n` and `\r` become `\n`); `Files.WriteThenRead` holds for the JSON written because `json.dumps` never writes a raw `\r`. `json.loads`, `json.dumps` and `yaml.safe_load` are opaque. Lemmas about written files assume `loads(dumps(v)) == v` (`Manifest.CodecRoundTrips`).
- Jinja2 rendering: when Jinja2 is installed the result is an opaque function of the template and variables; only the fallback is modelled.
- MD5, `random.Random` and the numpy generator: opaque. A draw is a real in [0, 1); float rounding in `lo + (hi - lo) * u` is not modelled, so the range bounds are proved over reals.
- Timestamps (`datetime.now(UTC).isoformat()`), `%.2f` formatting and all logging, including the warning on an empty review (impact_engine_evaluate/api.py:129-133).
- `MethodReviewer.load_artifact` is abstract (impact_engine_evaluate/review/methods/base.py:33-47), and neither built-in reviewer defines it, so as written no reviewer can be instantiated (see Findings). The corrected model supplies the default loader the experiment reviewer's docstring describes, as an opaque function of the manifest and the job directory; what that loader reads is not modelled.
- The OpenAI and LiteLLM backends and the client call of the Anthropic backend are SDK wrappers: a backend is a function from messages and arguments to a reply or an error. `response_format` is ignored, as the Anthropic backend ignores it.
- The structured-response path (`DimensionResponse`, `ReviewResponse`) and impact_engine_evaluate/adapter.py and impact_engine_evaluate/review/review_adapter.py are not part of this model: they sit outside the evaluate flow.
- Import-time auto-registration is modelled by its result only: `Methods.Builtins` holds `experiment`, `Methods.WithQuasiExperimental` adds `quasi_experimental`, and `Backends.AutoRegistered` holds `anthropic`, `openai` and `litellm`. Each backend module registers its class on import whatever SDK is installed (a missing SDK only makes the constructor raise `ImportError`), and the OpenAI and LiteLLM constructors are opaque.
- Unicode: `\s`, `\S`, `str.split()` and `strip()` use Python's `str.isspace` set (`Text.IsSpace`). `\d` (and `float()` of text) accept only the ASCII digits, where Python also accepts the other Unicode decimal digits.
- Text.Lower: maps only the ASCII letters `A`-`Z`; Python's `lower()` also lowers non-ASCII letters and can change the length (`'İ'.lower()` has two characters).
- Text.Repr: non-printable characters above U+00FF pass through unescaped, where Python writes `\uXXXX` or `\UXXXXXXXX`; the characters below U+0100 are escaped as Python escapes them.
- Error messages are CPython 3.12's texts for the cases modelled (for example the `TypeError` for an abstract class, for a repeated keyword argument and for a `str` index into a list or a string). An `Unsupported` error carries the model's own description of a case it does not evaluate, which is not Python's text.
- Manifest.FileEntries: when several entries fail, the error reported is that of the entry with the least key, while Python reports the first in the JSON document's order; a map has no order.
- Backends.SettingsOf: when several keywords are unexpected, the message names the least of them, while Python names the first passed; the keyword arguments are a map.
- Models.FromEvent: a `sample_size` that is not an integer gives `Unsupported`, while Python stores whatever value the event holds.
- Render.Format: fields Python accepts but the model does not evaluate give `Unsupported`: attribute access `{x.y}` (which Python evaluates, or fails with `AttributeError`), indexing `{x[0]}`, conversions `{x!r}`, format specs `{x:>5}` and nested fields. Of the parse errors Python raises before looking a name up, the model gives `ValueError` for a field ending in `!` and for a conversion not followed by `:` (`{x!rs}`). A `{` or `[` in a field is `Unsupported` even where Python would raise `ValueError` ("unexpected '{' in field name", an unclosed `[`). An unknown conversion letter of a known name (`{x!z}`) is `Unsupported`, where Python raises `ValueError` ("Unknown conversion specifier z"); with the name missing both give `KeyError`.
- Files: a directory maps file names to texts and the set of directories is separate, so one name can be both a file and a subdirectory. Reading a directory (Python's `IsADirectoryError`) and `glob` matching a subdirectory's name are not modelled.
- Json.FloatOfText: text with an exponent, `inf`, `nan` or underscores gives `Unsupported` rather than Python's value, because the model has no IEEE floats.
- Json.IntOfText: text with underscores gives `Unsupported` rather than Python's value.
- JSON values of an unexpected type in a field the code reads as text (a manifest's `model_type`, a prompt's `name`, a configured prompt or knowledge-base name that is truthy but not a string) give `Unsupported` rather than the value Python would carry along.
- The `expected_dimensions` argument of `_parse_dimensions` is not used by the code and is not modelled.
- The prompt registry's copy of `_minimal_yaml_load` is modelled by its difference from the engine's copy (`MiniYaml.RegistryStart`); the registry scan uses the corrected loader, see Findings.

Where the code and its tests disagree, the model follows the code:

- `load_manifest` defaults `evaluate_strategy` to `agentic` (impact_engine_evaluate/review/manifest.py:59,111), while tests/test_manifest.py:80,97 and tests/test_adapter.py:196 expect `review`. `route` accepts only `score` and `review` (impact_engine_evaluate/api.py:33), so a manifest without a strategy is rejected (`Evaluate.AgenticRejected`).
- `schema_version` is required (impact_engine_evaluate/review/manifest.py:92), while the manifests in tests/test_adapter.py:165 and tests/test_review_api.py:28-34 omit it.
- tests/test_engine.py:92-136 builds `ReviewEngine` with keywords the code's constructor does not take, and calls `review` without a spec.
- tests/test_prompt_registry.py:47-56 writes a block list under `dimensions:`; both minimal loaders store `""` for it and skip the items (`MiniYaml.BlockListNotParsed`).

## Findings

| source | as written | input that shows it | evidently intended | confidence | as-written member | corrected member |
|---|---|---|---|---|---|---|
| impact_engine_evaluate/review/prompts/registry.py:91-92 | the list-item branch appends under `key`, which only a key line assigns, so Python raises `UnboundLocalError` | a template without PyYAML whose first non-blank line is `- a` | skip the item, as the engine's copy does by starting with `key = ""` (impact_engine_evaluate/review/engine.py:369) | not executed | MiniYaml.LeadingListItem | MiniYaml.EngineAgreesWithRegistry |
| impact_engine_evaluate/review/methods/base.py:33-47,120 | `load_artifact` is abstract and neither built-in reviewer defines it, so `cls._methods[name]()` raises `TypeError` for every registered name | any job whose manifest has `model_type` `experiment` and strategy `score` or `review` | the default base-class loader that impact_engine_evaluate/review/methods/experiment/reviewer.py:19-20 describes | not executed | Methods.CreateAsWritten | Methods.Create |
| impact_engine_evaluate/review/api.py:62,70 | `config` is the `ReviewConfig` dataclass from `load_config`, and `config.get("methods", {})` raises `AttributeError` | any job whose configuration, manifest, reviewer and artifact all load | read the `methods` section of the raw configuration mapping | not executed | ReviewApi.ComputeReviewAsWritten | ReviewApi.ComputeReview |

The corrected members are the ones the rest of the model uses:

- The prompt registry scan (`Prompts.ScanFiles`) loads with `MiniYaml.EngineStart`.
- `ReviewApi.ReviewJob`, and through it `Evaluate.EvaluateConfidence`, calls `ReviewApi.ComputeReview`.
- `Evaluate.Route` and `ReviewApi.Prepare` call `Methods.Create`. `Evaluate.RouteAsWrittenFails` and `ReviewApi.PrepareAsWrittenFails` show that with `create` as written both `route` and `compute_review` fail for every job. `ReviewApi.ComputeReviewAsWritten` uses the corrected `Prepare`, so that it shows the `config.get` failure on its own.
- `ReviewApi.AsWrittenNeverReviews` shows that the code as written fails wherever the corrected version succeeds.
