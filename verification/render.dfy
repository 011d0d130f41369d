/** Rendering a prompt spec into chat messages. With Jinja2 installed the
    templates go to it; without it, `{{ name }}` placeholders are rewritten
    to `{name}`, `{% ... %}` tags are dropped, and `str.format_map` fills
    the fields, giving back the rewritten text when a name is missing.
 */
module Render {
  import opened Wrappers
  import opened Text
  import opened Json
  import opened Oracles
  import opened Models
  import opened Backends

  // ---------------------------------------------------------------------
  // the three regular-expression rewrites
  // ---------------------------------------------------------------------

  /** `re.sub(r"\{\{-?\s*", "{", s)`. */
  function SubOpen(s: string): (r: string)
    ensures |r| <= |s|
    ensures '{' !in s ==> r == s
    decreases |s|
  {
    if |s| >= 2 && s[0] == '{' && s[1] == '{' then
      var t := s[2..];
      var t1 := if t != [] && t[0] == '-' then t[1..] else t;
      "{" + SubOpen(LStrip(t1))
    else if s == [] then []
    else
      assert s == [s[0]] + s[1..];
      [s[0]] + SubOpen(s[1..])
  }

  /** `re.sub(r"\s*-?\}\}", "}", s)`: a whitespace run, an optional dash,
      then two closing braces. */
  function SubClose(s: string): (r: string)
    ensures |r| <= |s|
    decreases |s|
  {
    if s == [] then []
    else
      var k := FindBy(s, NotSpace);
      var t := s[k..];
      var t1 := if t != [] && t[0] == '-' then t[1..] else t;
      if StartsWith(t1, "}}") then "}" + SubClose(t1[2..])
      else [s[0]] + SubClose(s[1..])
  }

  /** Without a closing brace there is nothing to rewrite. */
  lemma {:induction false} SubCloseBraceFree(s: string)
    requires '}' !in s
    ensures SubClose(s) == s
    decreases |s|
  {
    if s != [] {
      var k := FindBy(s, NotSpace);
      var t := s[k..];
      var t1 := if t != [] && t[0] == '-' then t[1..] else t;
      assert '}' !in s[1..] by { assert forall c :: c in s[1..] ==> c in s; }
      SubCloseBraceFree(s[1..]);
      assert s == [s[0]] + s[1..];
    }
  }

  /** Where the lazy `.*?%\}` after a `{%` ends: the first `%}` reached
      before any newline, as an offset into `t`. */
  function TagEnd(t: string): (r: Option<nat>)
    ensures r.Some? ==> r.value + 2 <= |t| && t[r.value..r.value + 2] == "%}" && '\n' !in t[..r.value]
    ensures r.None? ==> forall j :: 0 <= j <= |t| - 2 && '\n' !in t[..j] ==> t[j..j + 2] != "%}"
  {
    if |t| >= 2 && t[..2] == "%}" then Some(0)
    else if t == [] || t[0] == '\n' then None
    else
      match TagEnd(t[1..])
      case Some(j) =>
        assert t[1..][j..j + 2] == t[j + 1..j + 3];
        assert t[..j + 1] == [t[0]] + t[1..][..j];
        Some(j + 1)
      case None =>
        assert forall j :: 1 <= j <= |t| - 2 ==> t[j..j + 2] == t[1..][j - 1..j + 1] && t[..j] == [t[0]] + t[1..][..j - 1];
        None
  }

  /** `re.sub(r"\{%.*?%\}", "", s)` without `DOTALL`. */
  function SubTags(s: string): (r: string)
    ensures |r| <= |s|
    ensures '%' !in s || '{' !in s ==> r == s
    decreases |s|
  {
    if |s| >= 2 && s[..2] == "{%" then
      assert s[0] == s[..2][0] && s[1] == s[..2][1];
      match TagEnd(s[2..])
      case Some(j) => SubTags(s[j + 4..])
      case None => [s[0]] + SubTags(s[1..])
    else if s == [] then []
    else
      assert s == [s[0]] + s[1..];
      [s[0]] + SubTags(s[1..])
  }

  /** The three rewrites in their order; text without braces is left as is. */
  function Convert(template: string): (r: string)
    ensures '{' !in template && '}' !in template ==> r == template
  {
    if '{' !in template && '}' !in template then
      SubCloseBraceFree(template);
      SubTags(SubClose(SubOpen(template)))
    else SubTags(SubClose(SubOpen(template)))
  }

  // ---------------------------------------------------------------------
  // str.format_map
  // ---------------------------------------------------------------------

  predicate IsFieldEnd(c: char)
  {
    c == '.' || c == '[' || c == '!' || c == ':'
  }

  const PositionalMessage := "Format string contains positional fields"

  /** Where a field's name gives way to a conversion or a format spec, as
      the format-string parser reads it. */
  predicate IsSpecStart(c: char)
  {
    c == '!' || c == ':'
  }

  const ConversionEndMessage := "end of string while looking for conversion specifier"
  const ConversionColonMessage := "expected ':' after conversion specifier"

  function Prepend(a: string, r: Result<string>): (r': Result<string>)
    ensures r.Ok? <==> r'.Ok?
    ensures r.Ok? ==> r'.value == a + r.value
    ensures r.Err? ==> r' == Err(r.error)
  {
    match r
    case Ok(t) => Ok(a + t)
    case Err(e) => Err(e)
  }

  /** `s.format_map(vars)`, with the first error in left-to-right order.
      A conversion, attribute, index or format spec after a known name is
      not modelled (`Unsupported`). */
  function Format(repr: Json -> string, s: string, vars: map<string, Json>): (r: Result<string>)
    ensures r.Err? && r.error.KeyError? ==> r.error.message != [] && r.error.message !in vars
    decreases |s|
  {
    if s == [] then Ok([])
    else if s[0] == '{' then
      if |s| == 1 then Err(ValueError("Single '{' encountered in format string"))
      else if s[1] == '{' then Prepend("{", Format(repr, s[2..], vars))
      else
        var k := FindChar(s[1..], '}');
        if k == |s| - 1 then Err(ValueError("expected '}' before end of string"))
        else
          var field := s[1..k + 1];
          var name := field[..FindBy(field, IsFieldEnd)];
          var e := FindBy(field, IsSpecStart);
          if '{' in field || '[' in field then Err(Unsupported("nested or indexed replacement field"))
          else if e < |field| && field[e] == '!' && e + 1 == |field| then Err(ValueError(ConversionEndMessage))
          else if e < |field| && field[e] == '!' && e + 2 < |field| && field[e + 2] != ':' then
            Err(ValueError(ConversionColonMessage))
          else if name == [] || forall i :: 0 <= i < |name| ==> IsDigit(name[i]) then Err(ValueError(PositionalMessage))
          else if name !in vars then Err(KeyError(name))
          else if name != field then Err(Unsupported("conversion, attribute or format spec"))
          else Prepend(PyStr(repr, vars[name]), Format(repr, s[k + 2..], vars))
    else if s[0] == '}' then
      if |s| >= 2 && s[1] == '}' then Prepend("}", Format(repr, s[2..], vars))
      else Err(ValueError("Single '}' encountered in format string"))
    else Prepend([s[0]], Format(repr, s[1..], vars))
  }

  /** `_render_template`: empty templates render empty; Jinja2 when it is
      there; otherwise the rewrite and `format_map`, whose `KeyError` gives
      back the rewritten text. */
  function RenderTemplate(o: Oracles, template: string, vars: map<string, Json>): (r: Result<string>)
    ensures template == [] ==> r == Ok("")
    ensures template != [] && o.jinja.Some? ==> r == o.jinja.value(template, vars)
    ensures template != [] && o.jinja.None? ==>
      var f := Format(o.repr, Convert(template), vars);
      r == if f.Err? && f.error.KeyError? then Ok(Convert(template)) else f
  {
    if template == [] then Ok("")
    else if o.jinja.Some? then o.jinja.value(template, vars)
    else
      var c := Convert(template);
      match Format(o.repr, c, vars)
      case Ok(t) => Ok(t)
      case Err(e) => if e.KeyError? then Ok(c) else Err(e)
  }

  /** `render`: the system message when its text is non-empty, then the
      user message when its text is non-empty. */
  function RenderMessages(o: Oracles, spec: PromptSpec, vars: map<string, Json>): (r: Result<seq<Message>>)
    ensures r.Ok? <==> RenderTemplate(o, spec.systemTemplate, vars).Ok? && RenderTemplate(o, spec.userTemplate, vars).Ok?
    ensures r.Ok? ==> var sys, user := RenderTemplate(o, spec.systemTemplate, vars).value, RenderTemplate(o, spec.userTemplate, vars).value;
      r.value == (if sys != [] then [Message("system", sys)] else []) + (if user != [] then [Message("user", user)] else [])
    ensures RenderTemplate(o, spec.systemTemplate, vars).Err? ==> r == Err(RenderTemplate(o, spec.systemTemplate, vars).error)
  {
    var sys :- RenderTemplate(o, spec.systemTemplate, vars);
    var user :- RenderTemplate(o, spec.userTemplate, vars);
    Ok((if sys != [] then [Message("system", sys)] else []) + (if user != [] then [Message("user", user)] else []))
  }

  // ---------------------------------------------------------------------
  // Properties
  // ---------------------------------------------------------------------

  predicate BraceFree(s: string)
  {
    '{' !in s && '}' !in s
  }

  /** A name `format_map` looks up as is: lower-case letters, digits and
      underscores, not starting with a digit. */
  predicate Identifier(n: string)
  {
    n != [] && PlainName(n) && !IsDigit(n[0])
  }

  /** Text without braces passes through `format_map` unchanged. */
  lemma {:induction false} FormatBraceFree(repr: Json -> string, s: string, vars: map<string, Json>)
    requires BraceFree(s)
    ensures Format(repr, s, vars) == Ok(s)
    decreases |s|
  {
    if s != [] {
      assert BraceFree(s[1..]) by { assert forall c :: c in s[1..] ==> c in s; }
      FormatBraceFree(repr, s[1..], vars);
      assert [s[0]] + s[1..] == s;
    }
  }

  /** Doubling every brace, the escape `format_map` undoes. */
  function EscapeBraces(t: string): (r: string)
    ensures |r| >= |t|
  {
    if t == [] then []
    else if t[0] == '{' || t[0] == '}' then [t[0], t[0]] + EscapeBraces(t[1..])
    else [t[0]] + EscapeBraces(t[1..])
  }

  /** `format_map` turns doubled braces back into single ones. */
  lemma {:induction false} FormatEscaped(repr: Json -> string, t: string, vars: map<string, Json>)
    ensures Format(repr, EscapeBraces(t), vars) == Ok(t)
  {
    if t != [] {
      var e := EscapeBraces(t);
      FormatEscaped(repr, t[1..], vars);
      if t[0] == '{' || t[0] == '}' {
        assert e[2..] == EscapeBraces(t[1..]);
      } else {
        assert e[1..] == EscapeBraces(t[1..]);
      }
      assert [t[0]] + t[1..] == t;
    }
  }

  /** How `Format` takes apart a field holding just an identifier. */
  lemma FieldParts(name: string, rest: string)
    requires Identifier(name)
    ensures var s := "{" + name + "}" + rest;
      |s| > |name| + 1 && s[0] == '{' && s[1] != '{'
      && FindChar(s[1..], '}') == |name| && s[1..|name| + 1] == name && s[|name| + 2..] == rest
    ensures FindBy(name, IsFieldEnd) == |name| && name[..|name|] == name
    ensures '[' !in name && '{' !in name
    ensures !(forall i :: 0 <= i < |name| ==> IsDigit(name[i]))
  {
    var s := "{" + name + "}" + rest;
    assert s[1..] == name + ("}" + rest);
    assert forall i :: 0 <= i < |name| ==> name[i] != '}' && name[i] != '[' && name[i] != '{' && !IsFieldEnd(name[i]);
    FindPrefix(name, "}" + rest, '}');
    assert s[1..|name| + 1] == name;
    assert s[|name| + 2..] == rest;
    assert !IsDigit(name[0]);
  }

  /** One field before the rest of the text: the value of a known name is
      put in its place. */
  lemma FormatField(repr: Json -> string, name: string, rest: string, vars: map<string, Json>)
    requires Identifier(name) && name in vars
    ensures Format(repr, "{" + name + "}" + rest, vars) == Prepend(PyStr(repr, vars[name]), Format(repr, rest, vars))
  {
    FieldParts(name, rest);
    var s := "{" + name + "}" + rest;
    var k := FindChar(s[1..], '}');
    assert s[1..k + 1] == name && s[k + 2..] == rest;
  }

  /** `format_map` of a field naming a missing variable is a `KeyError`. */
  lemma FormatMissing(repr: Json -> string, name: string, rest: string, vars: map<string, Json>)
    requires Identifier(name) && name !in vars
    ensures Format(repr, "{" + name + "}" + rest, vars) == Err(KeyError(name))
  {
    FieldParts(name, rest);
  }

  /** A `!` that ends the field is a parse error, raised before the name is
      looked up: whether the variable exists does not matter. */
  lemma FormatConversionAtEnd(repr: Json -> string, name: string, rest: string, vars: map<string, Json>)
    requires Identifier(name)
    ensures Format(repr, "{" + name + "!}" + rest, vars) == Err(ValueError(ConversionEndMessage))
  {
    var s := "{" + name + "!}" + rest;
    var field := name + "!";
    assert s[1..] == field + ("}" + rest);
    assert forall i :: 0 <= i < |name| ==> name[i] != '}' && name[i] != '[' && name[i] != '{' && !IsSpecStart(name[i]);
    assert forall i :: 0 <= i < |field| ==> field[i] != '}' && field[i] != '[' && field[i] != '{';
    FindPrefix(field, "}" + rest, '}');
    assert s[1..|field| + 1] == field;
    FindByAt(field, IsSpecStart, |name|);
  }

  /** Characters that neither start a closing run nor belong to one are
      copied by `SubClose`. */
  lemma {:induction false} SubCloseCopies(a: string, rest: string)
    requires forall i :: 0 <= i < |a| ==> !IsSpace(a[i]) && a[i] != '-' && a[i] != '}'
    ensures SubClose(a + rest) == a + SubClose(rest)
  {
    if a != [] {
      var s := a + rest;
      var a1 := a[1..];
      assert s[0] == a[0] && s[1..] == a1 + rest;
      assert forall i :: 0 <= i < |a1| ==> a1[i] == a[i + 1];
      SubCloseStep(s);
      SubCloseCopies(a1, rest);
      assert a == [a[0]] + a1;
      ConsAppend(SubClose(s), [a[0]], a1 + SubClose(rest), a, a1, SubClose(rest));
    } else {
      assert a + rest == rest;
    }
  }

  lemma SubCloseStep(s: string)
    requires s != [] && !IsSpace(s[0]) && s[0] != '-' && s[0] != '}'
    ensures SubClose(s) == [s[0]] + SubClose(s[1..])
  {
    assert FindBy(s, NotSpace) == 0;
    assert s[0..] == s;
    assert !StartsWith(s, "}}");
  }

  lemma NameChars(name: string)
    requires Identifier(name)
    ensures forall i :: 0 <= i < |name| ==>
      !IsSpace(name[i]) && name[i] != '-' && name[i] != '}' && name[i] != '{' && name[i] != '%'
  {
  }

  lemma OpenPlaceholder(name: string)
    requires Identifier(name)
    ensures SubOpen("{{ " + name + " }}") == "{" + name + " }}"
  {
    NameChars(name);
    var s := "{{ " + name + " }}";
    var t := " " + name + " }}";
    assert s[2..] == t;
    assert t[1..] == name + " }}";
    assert IsSpace(t[0]) && !IsSpace(t[1..][0]);
    assert LStripBy(t[1..], IsSpace) == t[1..];
    assert LStrip(t) == name + " }}";
    assert '{' !in name + " }}";
  }

  lemma ClosePlaceholder(name: string)
    requires Identifier(name)
    ensures SubClose("{" + name + " }}") == "{" + name + "}"
  {
    NameChars(name);
    SubCloseCopies("{" + name, " }}");
    assert " }}"[1..] == "}}";
    assert FindBy(" }}", NotSpace) == 1;
    assert "}}"[2..] == [];
    assert SubClose(" }}") == "}";
  }

  /** A Jinja2 placeholder `{{ name }}` becomes the `format_map` field `{name}`. */
  lemma ConvertPlaceholder(name: string)
    requires Identifier(name)
    ensures Convert("{{ " + name + " }}") == "{" + name + "}"
  {
    NameChars(name);
    OpenPlaceholder(name);
    ClosePlaceholder(name);
    assert '%' !in "{" + name + "}";
  }

  /** Without Jinja2, a template that is one placeholder renders to the
      variable's text, or stays `{name}` when the variable is missing. */
  lemma RenderPlaceholder(o: Oracles, name: string, vars: map<string, Json>)
    requires o.jinja.None? && Identifier(name)
    ensures name in vars ==> RenderTemplate(o, "{{ " + name + " }}", vars) == Ok(PyStr(o.repr, vars[name]))
    ensures name !in vars ==> RenderTemplate(o, "{{ " + name + " }}", vars) == Ok("{" + name + "}")
  {
    ConvertPlaceholder(name);
    var f := "{" + name + "}";
    assert f == "{" + name + "}" + "";
    if name in vars {
      FormatField(o.repr, name, "", vars);
      assert Format(o.repr, "", vars) == Ok("");
      assert PyStr(o.repr, vars[name]) + "" == PyStr(o.repr, vars[name]);
    } else {
      FormatMissing(o.repr, name, "", vars);
    }
  }
}
