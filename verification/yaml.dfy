/** The minimal YAML-subset loader used when PyYAML is absent: top-level
    `key: value` scalars, inline `[a, b]` lists, `key: - a` lists extended
    by later `- b` lines, and `key: |` blocks whose lines are indented.

    Two copies exist. The engine's starts with the last key set to `""`;
    the prompt registry's leaves it unset, so a `- item` line before any key
    line raises `UnboundLocalError`. `Load(EngineStart, ...)` is the
    engine's and `Load(RegistryStart, ...)` the registry's.
 */
module MiniYaml {
  import opened Wrappers
  import opened Text
  import opened Json

  datatype State = State(
    result: map<string, Json>,
    currentKey: Option<string>,   // the key of the open `|` block
    blockLines: seq<string>,
    blockIndent: Option<nat>,
    key: Option<string>)          // the last key line's key; `None` is unbound

  const Quotes: set<char> := {'"', '\''}
  const Brackets: set<char> := {'[', ']'}
  const DashSpace: set<char> := {'-', ' '}

  const UnboundMessage := "cannot access local variable 'key' where it is not associated with a value"

  function Start(key: Option<string>): State
  {
    State(map[], None, [], None, key)
  }

  const EngineStart := Start(Some(""))
  const RegistryStart := Start(None)

  /** The lines `for raw_line in fh` yields, without their newline. */
  function Lines(text: string): (r: seq<string>)
    ensures forall i :: 0 <= i < |r| ==> '\n' !in r[i]
  {
    var pieces := SplitOn(text, '\n');
    if pieces[|pieces| - 1] == [] then pieces[..|pieces| - 1] else pieces
  }

  /** `_flush`: store the open block when it has a non-empty key and lines. */
  function Flush(st: State): (m: map<string, Json>)
    ensures st.currentKey.Some? && st.currentKey.value != "" && st.blockLines != [] ==>
      m == st.result[st.currentKey.value := JStr(Join(st.blockLines, "\n"))]
    ensures !(st.currentKey.Some? && st.currentKey.value != "" && st.blockLines != []) ==> m == st.result
  {
    if st.currentKey.Some? && st.currentKey.value != "" && st.blockLines != [] then
      st.result[st.currentKey.value := JStr(Join(st.blockLines, "\n"))]
    else st.result
  }

  /** A line seen while a block is open either belongs to it or closes it. */
  datatype BlockOutcome = Consumed(st: State) | Closed(st: State)

  function InBlock(st: State, line: string): (r: BlockOutcome)
    requires st.currentKey.Some?
    ensures r.Closed? ==> r.st.currentKey.None? && r.st.result == Flush(st) && r.st.key == st.key
    ensures r.Consumed? ==> r.st.result == st.result && r.st.currentKey == st.currentKey && r.st.key == st.key
  {
    var stripped := LStrip(line);
    var indent := |line| - |stripped|;
    if st.blockIndent.None? && stripped == [] then
      Consumed(st.(blockLines := st.blockLines + [""]))
    else
      var bi := if st.blockIndent.Some? then st.blockIndent.value else indent;
      var st1 := st.(blockIndent := Some(bi));
      if indent >= bi && stripped != [] then Consumed(st1.(blockLines := st1.blockLines + [line[bi..]]))
      else if stripped == [] then Consumed(st1.(blockLines := st1.blockLines + [""]))
      else Closed(State(Flush(st1), None, [], None, st.key))
  }

  /** `[i.strip().strip("\"'") for i in items if i.strip()]`. */
  function ListItems(items: seq<string>): (r: seq<Json>)
    ensures |r| <= |items|
    ensures forall i :: 0 <= i < |r| ==> r[i].JStr?
  {
    if items == [] then []
    else
      var rest := ListItems(items[1..]);
      var t := Strip(items[0]);
      if t == [] then rest
      else
        var r := [JStr(StripChars(t, Quotes))] + rest;
        assert forall i :: 1 <= i < |r| ==> r[i] == rest[i - 1];
        r
  }

  /** A top-level `key: value` line. */
  function KeyLine(st: State, line: string): (st': State)
    requires ':' in line
    ensures st'.key.Some?
    ensures st'.key.value == Strip(Partition(line, ':').0)
  {
    var (k0, v0) := Partition(line, ':');
    var k := Strip(k0);
    var v := Strip(v0);
    if v == "|" then st.(currentKey := Some(k), blockLines := [], blockIndent := None, key := Some(k))
    else if StartsWith(v, "[") then
      st.(result := st.result[k := JArr(ListItems(SplitOn(StripChars(v, Brackets), ',')))], key := Some(k))
    else if StartsWith(v, "-") then
      st.(result := st.result[k := JArr([JStr(StripChars(LStripChars(v, DashSpace), Quotes))])], key := Some(k))
    else
      st.(result := st.result[k := JStr(StripChars(v, Quotes))], key := Some(k))
  }

  /** A line after any open block has been dealt with. */
  function OpenLine(st: State, line: string): (r: Result<State>)
    requires st.currentKey.None?
  {
    if ':' in line && !IsSpace(line[0]) then Ok(KeyLine(st, line))
    else if StartsWith(Strip(line), "- ") then
      match st.key
      case None => Err(UnboundLocalError(UnboundMessage))
      case Some(k) =>
        if k in st.result && st.result[k].JArr? then
          var item := JStr(StripChars(LStripChars(Strip(line), DashSpace), Quotes));
          Ok(st.(result := st.result[k := JArr(st.result[k].items + [item])]))
        else Ok(st)
    else Ok(st)
  }

  /** One iteration of the loop. */
  function Step(st: State, line: string): (r: Result<State>)
  {
    if st.currentKey.None? && (Strip(line) == [] || StartsWith(Strip(line), "#")) then Ok(st)
    else if st.currentKey.Some? then
      match InBlock(st, line)
      case Consumed(st') => Ok(st')
      case Closed(st') => OpenLine(st', line)
    else OpenLine(st, line)
  }

  /** The loop over `lines`, then the final flush. */
  function Run(st: State, lines: seq<string>): (r: Result<map<string, Json>>)
    decreases |lines|
  {
    if lines == [] then Ok(Flush(st))
    else
      var st' :- Step(st, lines[0]);
      Run(st', lines[1..])
  }

  /** `_minimal_yaml_load` on a file's text. */
  function Load(start: State, text: string): Result<map<string, Json>>
  {
    Run(start, Lines(text))
  }

  // ---------------------------------------------------------------------
  // Properties
  // ---------------------------------------------------------------------

  /** Every value the loader stores is a string or a list of strings. */
  predicate WellTyped(m: map<string, Json>)
  {
    forall k :: k in m ==> m[k].JStr? || (m[k].JArr? && forall i :: 0 <= i < |m[k].items| ==> m[k].items[i].JStr?)
  }

  lemma FlushWellTyped(st: State)
    requires WellTyped(st.result)
    ensures WellTyped(Flush(st))
  {
  }

  lemma KeyLineWellTyped(st: State, line: string)
    requires WellTyped(st.result) && ':' in line
    ensures WellTyped(KeyLine(st, line).result)
  {
    var (k0, v0) := Partition(line, ':');
    var k, v := Strip(k0), Strip(v0);
    if v == "|" {
    } else if StartsWith(v, "[") {
      PutWellTyped(st.result, k, JArr(ListItems(SplitOn(StripChars(v, Brackets), ','))));
    } else if StartsWith(v, "-") {
      PutWellTyped(st.result, k, JArr([JStr(StripChars(LStripChars(v, DashSpace), Quotes))]));
    } else {
      PutWellTyped(st.result, k, JStr(StripChars(v, Quotes)));
    }
  }

  lemma PutWellTyped(m: map<string, Json>, k: string, v: Json)
    requires WellTyped(m)
    requires v.JStr? || (v.JArr? && forall i :: 0 <= i < |v.items| ==> v.items[i].JStr?)
    ensures WellTyped(m[k := v])
  {
  }

  lemma OpenLineWellTyped(st: State, line: string)
    requires WellTyped(st.result) && st.currentKey.None?
    ensures OpenLine(st, line).Ok? ==> WellTyped(OpenLine(st, line).value.result)
  {
    if ':' in line && !IsSpace(line[0]) {
      KeyLineWellTyped(st, line);
    }
  }

  lemma StepWellTyped(st: State, line: string)
    requires WellTyped(st.result)
    ensures Step(st, line).Ok? ==> WellTyped(Step(st, line).value.result)
  {
    if st.currentKey.None? {
      OpenLineWellTyped(st, line);
    } else {
      var b := InBlock(st, line);
      if b.Closed? {
        FlushWellTyped(st);
        OpenLineWellTyped(b.st, line);
      }
    }
  }

  lemma {:induction false} RunWellTyped(st: State, lines: seq<string>)
    requires WellTyped(st.result)
    ensures Run(st, lines).Ok? ==> WellTyped(Run(st, lines).value)
    decreases |lines|
  {
    if lines != [] {
      StepWellTyped(st, lines[0]);
      if Step(st, lines[0]).Ok? {
        RunWellTyped(Step(st, lines[0]).value, lines[1..]);
      }
    }
  }

  /** The loader only ever yields strings and lists of strings. */
  lemma LoadWellTyped(start: State, text: string)
    requires start.result == map[]
    ensures Load(start, text).Ok? ==> WellTyped(Load(start, text).value)
  {
    RunWellTyped(start, Lines(text));
  }

  /** The two states differ at most in the unset initial key, and only before
      any key line, when nothing is stored yet. */
  predicate Twins(a: State, b: State)
  {
    a.result == b.result && a.currentKey == b.currentKey && a.blockLines == b.blockLines
    && a.blockIndent == b.blockIndent
    && (a.key == b.key || (a.key.None? && b.key == Some("") && "" !in b.result))
  }

  lemma OpenLineTwins(a: State, b: State, line: string)
    requires Twins(a, b) && a.currentKey.None?
    requires OpenLine(a, line).Ok?
    ensures OpenLine(b, line).Ok? && Twins(OpenLine(a, line).value, OpenLine(b, line).value)
  {
    if ':' in line && !IsSpace(line[0]) {
      assert KeyLine(a, line) == KeyLine(b, line).(key := KeyLine(a, line).key);
    }
  }

  lemma StepTwins(a: State, b: State, line: string)
    requires Twins(a, b)
    requires Step(a, line).Ok?
    ensures Step(b, line).Ok? && Twins(Step(a, line).value, Step(b, line).value)
  {
    if a.currentKey.None? {
      if !(Strip(line) == [] || StartsWith(Strip(line), "#")) {
        OpenLineTwins(a, b, line);
      }
    } else {
      var ra := InBlock(a, line);
      var rb := InBlock(b, line);
      assert ra == (match rb case Consumed(s) => Consumed(s.(key := a.key)) case Closed(s) => Closed(s.(key := a.key)));
      if ra.Closed? {
        OpenLineTwins(ra.st, rb.st, line);
      }
    }
  }

  lemma {:induction false} RunTwins(a: State, b: State, lines: seq<string>)
    requires Twins(a, b)
    requires Run(a, lines).Ok?
    ensures Run(b, lines) == Run(a, lines)
    decreases |lines|
  {
    if lines != [] {
      StepTwins(a, b, lines[0]);
      RunTwins(Step(a, lines[0]).value, Step(b, lines[0]).value, lines[1..]);
    }
  }

  /** Wherever the prompt registry's copy succeeds, the engine's copy gives
      the same mapping: the copies differ only in the `UnboundLocalError`. */
  lemma EngineAgreesWithRegistry(text: string)
    requires Load(RegistryStart, text).Ok?
    ensures Load(EngineStart, text) == Load(RegistryStart, text)
  {
    RunTwins(RegistryStart, EngineStart, Lines(text));
  }

  /** A list item ahead of every key line: the registry's copy fails, the
      engine's copy skips the line. */
  lemma LeadingListItem()
    ensures Load(RegistryStart, "- a") == Err(UnboundLocalError(UnboundMessage))
    ensures Load(EngineStart, "- a") == Ok(map[])
  {
    assert Lines("- a") == ["- a"];
    assert Strip("- a") == "- a" by { StripTrimmed("- a"); }
  }

  /** Two lines joined by a newline come back as those two lines. */
  lemma LinesOfTwo(l0: string, l1: string)
    requires '\n' !in l0 && '\n' !in l1 && l1 != []
    ensures Lines(l0 + "\n" + l1) == [l0, l1]
  {
    SplitOnJoin([l0, l1], '\n');
    assert Join([l0, l1], "\n") == l0 + "\n" + l1;
  }

  lemma EmptyValuePartition()
    ensures Partition("dimensions:", ':') == ("dimensions", "")
  {
    assert "dimensions:" == "dimensions" + [':'] + "";
    PartitionAt("dimensions", "", ':');
  }

  lemma EmptyValueKeyLine(start: State)
    ensures KeyLine(start, "dimensions:")
      == start.(result := start.result["dimensions" := JStr("")], key := Some("dimensions"))
  {
    var k := "dimensions";
    assert Trimmed(k) by { assert k[0] == 'd' && k[|k| - 1] == 's'; }
    StripTrimmed(k);
    EmptyValuePartition();
    StripTrimmed("");
    assert StripChars("", Quotes) == "";
    ScalarKeyLine(start, "dimensions:", "dimensions", "");
  }

  lemma ScalarKeyLine(st: State, line: string, k: string, v: string)
    requires ':' in line
    requires Strip(Partition(line, ':').0) == k && Strip(Partition(line, ':').1) == v
    requires v != "|" && !StartsWith(v, "[") && !StartsWith(v, "-")
    ensures KeyLine(st, line) == st.(result := st.result[k := JStr(StripChars(v, Quotes))], key := Some(k))
  {
  }

  lemma EmptyValueLine(start: State)
    requires start.currentKey.None?
    ensures Step(start, "dimensions:")
      == Ok(start.(result := start.result["dimensions" := JStr("")], key := Some("dimensions")))
  {
    var l0 := "dimensions:";
    assert Trimmed(l0) by { assert l0[0] == 'd' && l0[|l0| - 1] == ':'; }
    StripTrimmed(l0);
    assert ':' in l0 && !IsSpace(l0[0]) && l0[0] != '#';
    KeyLineStep(start, l0);
    EmptyValueKeyLine(start);
  }

  /** Outside a block, a trimmed line holding a colon is a key line. */
  lemma KeyLineStep(st: State, line: string)
    requires st.currentKey.None? && line != [] && Strip(line) == line
    requires ':' in line && !IsSpace(line[0]) && line[0] != '#'
    ensures Step(st, line) == Ok(KeyLine(st, line))
  {
    assert !StartsWith(line, "#");
  }

  lemma IndentedItemLine(st: State)
    requires st.currentKey.None? && st.key == Some("dimensions")
    requires "dimensions" in st.result && st.result["dimensions"] == JStr("")
    ensures Step(st, "  - dim_a") == Ok(st)
  {
    var l1 := "  - dim_a";
    assert Strip(l1) == "- dim_a" by {
      assert LStrip(l1) == "- dim_a";
      StripTrimmed("- dim_a");
    }
    assert ':' !in l1;
  }

  /** A block-style list under a key with nothing after its colon: the key
      gets the empty string, and the indented `- item` line is dropped
      because that value is not a list. PyYAML would give `["dim_a"]`. */
  lemma BlockListNotParsed(start: State)
    requires start == EngineStart || start == RegistryStart
    ensures Load(start, "dimensions:\n  - dim_a") == Ok(map["dimensions" := JStr("")])
  {
    BlockListLines();
    var st1 := start.(result := start.result["dimensions" := JStr("")], key := Some("dimensions"));
    KeyLineRun(start);
    ItemLineRun(st1);
    assert st1.result == map["dimensions" := JStr("")];
  }

  lemma BlockListLines()
    ensures Lines("dimensions:\n  - dim_a") == ["dimensions:", "  - dim_a"]
  {
    assert "dimensions:\n  - dim_a" == "dimensions:" + "\n" + "  - dim_a";
    LinesOfTwo("dimensions:", "  - dim_a");
  }

  /** The key line of the block list opens the key and moves on to the item line. */
  lemma KeyLineRun(start: State)
    requires start.currentKey.None?
    ensures Run(start, ["dimensions:", "  - dim_a"])
      == Run(start.(result := start.result["dimensions" := JStr("")], key := Some("dimensions")), ["  - dim_a"])
  {
    EmptyValueLine(start);
    assert ["dimensions:", "  - dim_a"][1..] == ["  - dim_a"];
  }

  /** The item line is skipped, so the run ends with the result as it stood. */
  lemma ItemLineRun(st: State)
    requires st.currentKey.None? && st.key == Some("dimensions")
    requires "dimensions" in st.result && st.result["dimensions"] == JStr("")
    ensures Run(st, ["  - dim_a"]) == Ok(st.result)
  {
    IndentedItemLine(st);
    assert ["  - dim_a"][1..] == [];
  }

}
