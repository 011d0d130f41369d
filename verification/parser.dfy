/** Reading a reviewer's reply: the DIMENSION / SCORE / JUSTIFICATION
    blocks the prompt asks for, the JSON object accepted when no block is
    found, and the OVERALL line with its fallback to the mean score.

    The block pattern is a regular expression compiled with DOTALL; it is
    modelled on suffixes of the reply, one greedy run at a time, together
    with the argument why backing a run off never yields another match.
 */
module Parser {
  import opened Wrappers
  import opened Text
  import opened Numbers
  import opened Json
  import opened Oracles
  import opened Models
  import opened Results

  /** One block as the pattern's three named groups capture it. */
  datatype Block = Block(name: string, scoreText: string, justification: string)

  predicate NotDecimal(c: char)
  {
    !IsDecimalChar(c)
  }

  /** What every captured block satisfies: `\S+` gave a non-empty name
      without whitespace, `[\d.]+` a non-empty run of digits and dots, and
      the justification has been stripped. */
  predicate Captured(b: Block)
  {
    && b.name != [] && NoSpace(b.name)
    && b.scoreText != [] && AllDecimal(b.scoreText)
    && Trimmed(b.justification)
  }

  // ---------------------------------------------------------------------
  // the block pattern
  // ---------------------------------------------------------------------

  /** `key\s*(run)\s*\n` at the start of `s`, the run being the longest
      stretch of characters outside `p`: the run and the text after the
      newline.  No greedy part can give characters back to form another
      match: a shorter `\s*` leaves a blank where the run must start, a
      shorter run leaves a run character where a blank or the newline must
      be, and a shorter final `\s*` puts the newline before a blank where
      the next keyword must start.  So `\s*\n` matches exactly when the
      blank stretch ends in a newline. */
  function FieldLine(s: string, key: string, p: char -> bool): (r: Option<(string, string)>)
    ensures r.Some? ==> r.value.0 != [] && (forall i :: 0 <= i < |r.value.0| ==> !p(r.value.0[i]))
    ensures r.Some? ==> |r.value.1| < |s|
  {
    if !StartsWith(s, key) then None
    else
      var s1 := s[|key|..];
      var s2 := s1[FindBy(s1, NotSpace)..];
      var n := FindBy(s2, p);
      var s3 := s2[n..];
      var w := FindBy(s3, NotSpace);
      if n == 0 || w == 0 || s3[w - 1] != '\n' then None
      else Some((s2[..n], s3[w..]))
  }

  /** A keyword the justification's look-ahead stops before. */
  predicate Keyword(r: string)
  {
    StartsWith(r, "DIMENSION:") || StartsWith(r, "OVERALL:")
  }

  /** The look-ahead `(?=\nDIMENSION:|\nOVERALL:|\Z)` holds at offset `e`. */
  predicate Stop(s: string, e: nat)
  {
    e == |s| || (e < |s| && s[e] == '\n' && Keyword(s[e + 1..]))
  }

  /** Where the lazy `.+?` of a justification ends: the first offset from
      `e` on at which the look-ahead holds. */
  function JustEnd(s: string, e: nat): (r: nat)
    requires e <= |s|
    ensures e <= r <= |s| && Stop(s, r)
    ensures forall j :: e <= j < r ==> !Stop(s, j)
    decreases |s| - e
  {
    if Stop(s, e) then e else JustEnd(s, e + 1)
  }

  /** `JUSTIFICATION:\s*(.+?)` up to the look-ahead, stripped, and the text
      after it.  The greedy `\s*` gives back one blank only when nothing
      else is left, so a justification of blanks at the very end is
      empty. */
  function JustificationAt(s: string): (r: Option<(string, string)>)
    ensures r.None? <==> !StartsWith(s, "JUSTIFICATION:") || |s| == 14
    ensures r.Some? ==> Trimmed(r.value.0) && |r.value.1| < |s|
    ensures r.Some? ==> r.value.1 == s[|s| - |r.value.1|..]
    ensures r.Some? ==> r.value.1 == [] || (r.value.1[0] == '\n' && Keyword(r.value.1[1..]))
  {
    if !StartsWith(s, "JUSTIFICATION:") then None
    else
      var s1 := s[14..];
      var p := FindBy(s1, NotSpace);
      if p < |s1| then
        var s2 := s1[p..];
        var e := JustEnd(s2, 1);
        var j := Strip(s2[..e]);
        assert Trimmed(j);
        assert s2[e..] == s[14 + p + e..];
        assert e < |s2| ==> s2[e..][0] == s2[e] && s2[e..][1..] == s2[e + 1..];
        Some((j, s2[e..]))
      else if p > 0 then Some(([], []))
      else None
  }

  /** The whole pattern tried at the start of `t`: the captured block and
      the text after the match. */
  function MatchAt(t: string): (m: Option<(Block, string)>)
    ensures m.Some? ==> Captured(m.value.0) && |m.value.1| < |t|
  {
    match FieldLine(t, "DIMENSION:", IsSpace)
    case None => None
    case Some((name, t1)) =>
      match FieldLine(t1, "SCORE:", NotDecimal)
      case None => None
      case Some((score, t2)) =>
        match JustificationAt(t2)
        case None => None
        case Some((just, rest)) => Some((Block(name, score, just), rest))
  }

  /** `pattern.finditer(t)`: the pattern tried at each position from the
      left, resuming after each match. */
  function Scan(t: string): (r: seq<Block>)
    ensures forall i :: 0 <= i < |r| ==> Captured(r[i])
    decreases |t|
  {
    if t == [] then []
    else
      match MatchAt(t)
      case Some((b, rest)) => CapturedCons(b, Scan(rest)); [b] + Scan(rest)
      case None => Scan(t[1..])
  }

  lemma CapturedCons(b: Block, rest: seq<Block>)
    requires Captured(b) && forall i :: 0 <= i < |rest| ==> Captured(rest[i])
    ensures forall i :: 0 <= i < |[b] + rest| ==> Captured(([b] + rest)[i])
  {
    var r := [b] + rest;
    forall i | 0 <= i < |r| ensures Captured(r[i]) {
      if i > 0 { assert r[i] == rest[i - 1]; }
    }
  }

  /** The dimension a block yields.  The name is already free of
      whitespace, so stripping it changes nothing; the score is `float()`
      of the score text, 0.0 when that raises, clamped to [0, 1]. */
  function ToDimension(b: Block): (d: ReviewDimension)
  {
    ReviewDimension(b.name, Clamp01(ParseDecimal(b.scoreText).GetOr(0.0)), b.justification)
  }

  function Dimensions(bs: seq<Block>): (ds: seq<ReviewDimension>)
    ensures |ds| == |bs|
  {
    seq(|bs|, i requires 0 <= i < |bs| => ToDimension(bs[i]))
  }

  /** Every score in [0, 1]. */
  predicate UnitScores(ds: seq<ReviewDimension>)
  {
    forall i :: 0 <= i < |ds| ==> 0.0 <= ds[i].score <= 1.0
  }

  /** The dimensions the structured text gives: one per block, in order,
      each named by its block and scored in [0, 1]. */
  function TextDimensions(t: string): (ds: seq<ReviewDimension>)
    ensures UnitScores(ds)
    ensures |ds| == |Scan(t)|
    ensures forall i :: 0 <= i < |ds| ==>
      && ds[i].name != [] && NoSpace(ds[i].name)
      && ds[i].name == Scan(t)[i].name && ds[i].justification == Scan(t)[i].justification
    ensures forall i :: 0 <= i < |ds| ==>
      ds[i].score == Clamp01(ParseDecimal(Scan(t)[i].scoreText).GetOr(0.0))
    ensures forall i :: 0 <= i < |ds| && ParseDecimal(Scan(t)[i].scoreText).None? ==> ds[i].score == 0.0
  {
    Dimensions(Scan(t))
  }

  // ---------------------------------------------------------------------
  // the JSON fallback
  // ---------------------------------------------------------------------

  /** Entry `v` of a JSON `dimensions` list yields dimension `d`: `v` is an
      object, and `d` holds its `name` (default "unknown"), `float()` of
      its `score` (default 0.0) clamped to [0, 1], and its `justification`
      (default ""). */
  predicate ItemGives(v: Json, d: ReviewDimension)
  {
    && v.JObj?
    && Get(v.fields, "name", JStr("unknown")) == JStr(d.name)
    && PyFloat(Get(v.fields, "score", JFloat(0.0))).Ok?
    && d.score == Clamp01(PyFloat(Get(v.fields, "score", JFloat(0.0))).value)
    && Get(v.fields, "justification", JStr("")) == JStr(d.justification)
  }

  /** `float()` of the entry's score raises a `TypeError` (null, list or object). */
  predicate ScoreTypeError(v: Json)
  {
    && v.JObj?
    && PyFloat(Get(v.fields, "score", JFloat(0.0))).Err?
    && PyFloat(Get(v.fields, "score", JFloat(0.0))).error.TypeError?
  }

  /** The loop over a JSON `dimensions` list.  A `TypeError` from `float()`
      is caught by the parser, which keeps the dimensions appended so
      far; an entry that is not an object fails on `.get`, and a
      `ValueError` from `float()` of a text is not caught. */
  function FromItems(items: seq<Json>): (r: Result<seq<ReviewDimension>>)
    ensures r.Ok? ==> |r.value| <= |items|
    ensures r.Ok? ==> forall i :: 0 <= i < |r.value| ==> ItemGives(items[i], r.value[i])
    ensures r.Ok? && |r.value| < |items| ==> ScoreTypeError(items[|r.value|])
    ensures items != [] && !items[0].JObj? ==> r == Err(AttributeError(NoGetMessage(items[0])))
  {
    if items == [] then Ok([])
    else
      var v := items[0];
      if !v.JObj? then Err(AttributeError(NoGetMessage(v)))
      else
        var name := Get(v.fields, "name", JStr("unknown"));
        var score := PyFloat(Get(v.fields, "score", JFloat(0.0)));
        if score.Err? then
          if score.error.TypeError? then Ok([]) else Err(score.error)
        else
          var just := Get(v.fields, "justification", JStr(""));
          if !name.JStr? || !just.JStr? then
            Err(Unsupported("a dimension name or justification that is not a string"))
          else
            var d := ReviewDimension(name.s, Clamp01(score.value), just.s);
            match FromItems(items[1..])
            case Ok(rest) => ItemsCons(items, d, rest); ItemsStop(items, rest); Ok([d] + rest)
            case Err(e) => Err(e)
  }

  lemma ItemsCons(items: seq<Json>, d: ReviewDimension, rest: seq<ReviewDimension>)
    requires items != [] && ItemGives(items[0], d)
    requires |rest| <= |items| - 1
    requires forall i :: 0 <= i < |rest| ==> ItemGives(items[1..][i], rest[i])
    ensures forall i :: 0 <= i < |[d] + rest| ==> ItemGives(items[i], ([d] + rest)[i])
  {
    var r := [d] + rest;
    forall i | 0 <= i < |r| ensures ItemGives(items[i], r[i]) {
      if i > 0 { assert r[i] == rest[i - 1] && items[i] == items[1..][i - 1]; }
    }
  }

  /** An entry that stopped the rest of the list stops the whole list. */
  lemma ItemsStop(items: seq<Json>, rest: seq<ReviewDimension>)
    requires items != [] && |rest| <= |items| - 1
    requires |rest| < |items| - 1 ==> ScoreTypeError(items[1..][|rest|])
    ensures |rest| + 1 < |items| ==> ScoreTypeError(items[|rest| + 1])
  {
    if |rest| + 1 < |items| {
      assert items[|rest| + 1] == items[1..][|rest|];
    }
  }

  /** Iterating the value stored under `dimensions`: a list gives its
      entries; a non-empty object or string gives keys or characters, and
      `.get` on a string fails; a number, boolean or null is not
      iterable, a `TypeError` the parser swallows. */
  function FromDimensions(v: Json): (r: Result<seq<ReviewDimension>>)
  {
    match v
    case JArr(items) => FromItems(items)
    case JObj(fields) => if fields == map[] then Ok([]) else Err(AttributeError(NoGetMessage(JStr(""))))
    case JStr(s) => if s == [] then Ok([]) else Err(AttributeError(NoGetMessage(JStr(""))))
    case _ => Ok([])
  }

  /** The JSON attempt: anything that does not decode, or that is not an
      object with a `dimensions` key, yields no dimensions; dimensions it
      does yield come, in order, from the entries of that list. */
  function JsonFallback(o: Oracles, response: string): (r: Result<seq<ReviewDimension>>)
    ensures o.loads(response).None? ==> r == Ok([])
    ensures o.loads(response).Some? && !(o.loads(response).value.JObj? && "dimensions" in o.loads(response).value.fields)
      ==> r == Ok([])
    ensures r.Ok? && r.value != [] ==>
      && o.loads(response).Some? && o.loads(response).value.JObj?
      && "dimensions" in o.loads(response).value.fields
      && var v := o.loads(response).value.fields["dimensions"];
      && v.JArr? && |r.value| <= |v.items|
      && forall i :: 0 <= i < |r.value| ==> ItemGives(v.items[i], r.value[i])
  {
    match o.loads(response)
    case None => Ok([])
    case Some(data) =>
      if data.JObj? && "dimensions" in data.fields then FromDimensions(data.fields["dimensions"])
      else Ok([])
  }

  /** `_parse_dimensions`: the blocks when there is at least one, otherwise
      the JSON attempt.  Every score it returns is in [0, 1]. */
  function ParseDimensions(o: Oracles, response: string): (r: Result<seq<ReviewDimension>>)
    ensures Scan(response) != [] ==> r == Ok(TextDimensions(response))
    ensures Scan(response) == [] ==> r == JsonFallback(o, response)
    ensures r.Ok? ==> UnitScores(r.value)
  {
    var ds := TextDimensions(response);
    if ds != [] then Ok(ds)
    else
      var r := JsonFallback(o, response);
      assert r.Ok? && r.value != [] ==> forall i :: 0 <= i < |r.value| ==> 0.0 <= r.value[i].score <= 1.0;
      r
  }

  // ---------------------------------------------------------------------
  // the overall score
  // ---------------------------------------------------------------------

  /** `OVERALL:\s*([\d.]+)` tried at the start of `t`: the captured run. */
  function OverallAt(t: string): (r: Option<string>)
    ensures r.Some? ==> r.value != [] && AllDecimal(r.value)
  {
    if !StartsWith(t, "OVERALL:") then None
    else
      var s := t[8..];
      var s1 := s[FindBy(s, NotSpace)..];
      var n := FindBy(s1, NotDecimal);
      if n == 0 then None else Some(s1[..n])
  }

  /** `re.search`: the capture at the leftmost position where there is one. */
  function FindOverall(t: string): (r: Option<string>)
    ensures r.Some? ==> r.value != [] && AllDecimal(r.value)
    decreases |t|
  {
    if t == [] then None
    else if OverallAt(t).Some? then OverallAt(t)
    else FindOverall(t[1..])
  }

  function Scores(ds: seq<ReviewDimension>): (xs: seq<real>)
    ensures |xs| == |ds| && forall i :: 0 <= i < |ds| ==> xs[i] == ds[i].score
  {
    seq(|ds|, i requires 0 <= i < |ds| => ds[i].score)
  }

  /** The score used when the reply states none that parses: the mean of
      the dimension scores, or 0.0 without dimensions. */
  function MeanScore(ds: seq<ReviewDimension>): (r: real)
    ensures UnitScores(ds) ==> 0.0 <= r <= 1.0
  {
    if ds == [] then 0.0
    else
      MeanUnit(ds);
      Mean(Scores(ds))
  }

  lemma MeanUnit(ds: seq<ReviewDimension>)
    requires ds != []
    ensures UnitScores(ds) ==> 0.0 <= Mean(Scores(ds)) <= 1.0
  {
    if UnitScores(ds) {
      MeanBounds(Scores(ds), 0.0, 1.0);
    }
  }

  /** `_parse_overall`: the first OVERALL capture clamped to [0, 1] when
      `float()` accepts it; a capture it rejects (no digit, or two dots) is
      passed over in favour of the mean, and no later OVERALL is tried. */
  function ParseOverall(response: string, ds: seq<ReviewDimension>): (r: real)
    ensures UnitScores(ds) ==> 0.0 <= r <= 1.0
    ensures FindOverall(response).Some? && ParseDecimal(FindOverall(response).value).Some? ==>
      r == Clamp01(ParseDecimal(FindOverall(response).value).value)
    ensures FindOverall(response).None? ==> r == MeanScore(ds)
    ensures FindOverall(response).Some? && ParseDecimal(FindOverall(response).value).None? ==> r == MeanScore(ds)
  {
    match FindOverall(response)
    case Some(x) =>
      (match ParseDecimal(x)
       case Some(v) => Clamp01(v)
       case None => MeanScore(ds))
    case None => MeanScore(ds)
  }

  // ---------------------------------------------------------------------
  // the reply format, and reading it back
  // ---------------------------------------------------------------------

  /** The justification line of a written block, its newline, then `u`. */
  function JustLine(j: string, u: string): string
  {
    "JUSTIFICATION:" + (" " + (j + ("\n" + u)))
  }

  /** The score line of a written block, then its justification line. */
  function ScoreLine(b: Block, u: string): string
  {
    "SCORE:" + (" " + (b.scoreText + ("\n" + JustLine(b.justification, u))))
  }

  /** A block written the way the prompt asks, its closing newline, then `u`. */
  function BlockThen(b: Block, u: string): (t: string)
    ensures StartsWith(t, "DIMENSION:")
  {
    "DIMENSION:" + (" " + (b.name + ("\n" + ScoreLine(b, u))))
  }

  /** A reply holding the blocks `bs`, a blank line between two blocks,
      and `tail` after the last one. */
  function Reply(bs: seq<Block>, tail: string): string
    decreases |bs|
  {
    if bs == [] then tail
    else if |bs| == 1 then BlockThen(bs[0], tail)
    else BlockThen(bs[0], "\n" + Reply(bs[1..], tail))
  }

  /** The closing line of a reply: a blank line, then `OVERALL: x`. */
  function OverallLine(x: string): string
  {
    "\n" + ("OVERALL:" + (" " + (x + "\n")))
  }

  /** A block the format can carry and the pattern gives back unchanged:
      a justification on one line, not empty and with nothing to strip. */
  predicate Writable(b: Block)
  {
    && b.name != [] && NoSpace(b.name)
    && b.scoreText != [] && AllDecimal(b.scoreText)
    && b.justification != [] && Trimmed(b.justification) && '\n' !in b.justification
  }

  /** What may follow a block's closing newline: nothing, or a newline and
      the next block or the overall line. */
  predicate Follows(u: string)
  {
    u == [] || (u[0] == '\n' && Keyword(u[1..]))
  }

  /** A non-empty prefix fixes the first character. */
  lemma PrefixHead(t: string, k: string)
    requires k != []
    ensures StartsWith(t, k) ==> t != [] && t[0] == k[0]
  {
  }

  lemma NotKeyword(u: string)
    requires u == [] || u[0] == '\n'
    ensures !Keyword(u)
  {
    PrefixHead(u, "DIMENSION:");
    PrefixHead(u, "OVERALL:");
  }

  /** A run of characters outside class `p`, then one inside it (or the end). */
  lemma RunThen(w: string, s: string, p: char -> bool)
    requires forall i :: 0 <= i < |w| ==> !p(w[i])
    requires s == [] || p(s[0])
    ensures FindBy(w + s, p) == |w| && (w + s)[..|w|] == w && (w + s)[|w|..] == s
  {
    assert forall i :: 0 <= i < |w| ==> (w + s)[i] == w[i];
    assert s != [] ==> (w + s)[|w|] == s[0];
  }

  /** A field written as `key value` on its own line is read back. */
  lemma FieldWritten(key: string, v: string, x: string, p: char -> bool)
    requires v != [] && !IsSpace(v[0]) && (forall i :: 0 <= i < |v| ==> !p(v[i])) && p('\n')
    requires x == [] || !IsSpace(x[0])
    ensures FieldLine(key + (" " + (v + ("\n" + x))), key, p) == Some((v, x))
  {
    var s3 := "\n" + x;
    var s2 := v + s3;
    var s1 := " " + s2;
    var s := key + s1;
    assert StartsWith(s, key) && s[|key|..] == s1 by {
      assert s[..|key|] == key && s[|key|..] == s1;
    }
    assert FindBy(s1, NotSpace) == 1 && s1[1..] == s2 by {
      assert s2[0] == v[0];
      RunThen(" ", s2, NotSpace);
    }
    assert FindBy(s2, p) == |v| && s2[..|v|] == v && s2[|v|..] == s3 by {
      RunThen(v, s3, p);
    }
    assert FindBy(s3, NotSpace) == 1 && s3[1..] == x && s3[0] == '\n' by {
      RunThen("\n", x, NotSpace);
    }
    FieldFrom(s, s1, s2, s3, key, v, x, p);
  }

  /** The steps of `FieldLine` on a written line, one fact each. */
  lemma FieldFrom(s: string, s1: string, s2: string, s3: string, key: string, v: string, x: string, p: char -> bool)
    requires StartsWith(s, key) && s[|key|..] == s1
    requires |s1| >= 1 && FindBy(s1, NotSpace) == 1 && s1[1..] == s2
    requires v != [] && |s2| >= |v| && FindBy(s2, p) == |v| && s2[..|v|] == v && s2[|v|..] == s3
    requires |s3| >= 1 && FindBy(s3, NotSpace) == 1 && s3[1..] == x && s3[0] == '\n'
    ensures FieldLine(s, key, p) == Some((v, x))
  {
  }

  /** The lazy justification of a one-line text stops at the newline that
      precedes whatever `Follows` allows. */
  lemma JustEndAfter(j: string, u: string)
    requires j != [] && '\n' !in j && Follows(u)
    ensures JustEnd(j + ("\n" + u), 1) == |j| + 1
  {
    var s := j + ("\n" + u);
    assert Stop(s, |j| + 1) by { StopAfterLine(j, u); }
    assert forall m :: 1 <= m < |j| + 1 ==> !Stop(s, m) by { NoStopBefore(j, u); }
    FirstStop(s, 1, |j| + 1);
  }

  lemma NoStopBefore(j: string, u: string)
    requires '\n' !in j && Follows(u)
    ensures forall m :: 1 <= m < |j| + 1 ==> !Stop(j + ("\n" + u), m)
  {
    forall m | 1 <= m < |j| + 1
      ensures !Stop(j + ("\n" + u), m)
    {
      NoStopInLine(j, u, m);
    }
  }

  /** The look-ahead holds just past the line's newline. */
  lemma StopAfterLine(j: string, u: string)
    requires Follows(u)
    ensures Stop(j + ("\n" + u), |j| + 1)
  {
    var s := j + ("\n" + u);
    assert |s| == |j| + 1 + |u|;
    if u != [] {
      assert s[|j| + 1] == u[0] && s[|j| + 2..] == u[1..];
    }
  }

  /** Nowhere inside the line, nor at its newline, does the look-ahead hold. */
  lemma NoStopInLine(j: string, u: string, m: nat)
    requires '\n' !in j && Follows(u) && m <= |j|
    ensures !Stop(j + ("\n" + u), m)
  {
    var s := j + ("\n" + u);
    if m < |j| {
      assert s[m] == j[m];
    } else {
      assert s[m + 1..] == u;
      NotKeyword(u);
    }
  }

  /** The lazy match ends at the first offset where the look-ahead holds. */
  lemma FirstStop(s: string, e: nat, k: nat)
    requires e <= k <= |s| && Stop(s, k)
    requires forall m :: e <= m < k ==> !Stop(s, m)
    ensures JustEnd(s, e) == k
  {
  }

  /** Stripping a one-line justification and its newline gives it back. */
  lemma StripNewline(j: string)
    requires j != [] && Trimmed(j)
    ensures Strip(j + "\n") == j
  {
    var s := j + "\n";
    assert s[0] == j[0];
    assert LStripBy(s, IsSpace) == s;
    assert s[..|s| - 1] == j;
    assert RStripBy(s, IsSpace) == RStripBy(j, IsSpace) == j;
  }

  lemma JustificationWritten(j: string, u: string)
    requires j != [] && Trimmed(j) && '\n' !in j && Follows(u)
    ensures JustificationAt(JustLine(j, u)) == Some((j, u))
  {
    var s2 := j + ("\n" + u);
    var s1 := " " + s2;
    var s := "JUSTIFICATION:" + s1;
    assert s == JustLine(j, u);
    assert StartsWith(s, "JUSTIFICATION:") && s[14..] == s1 by {
      assert s[..14] == "JUSTIFICATION:" && s[14..] == s1;
    }
    assert FindBy(s1, NotSpace) == 1 && s1[1..] == s2 by {
      assert s2[0] == j[0];
      RunThen(" ", s2, NotSpace);
    }
    assert s2[..|j| + 1] == j + "\n" && s2[|j| + 1..] == u;
    JustEndAfter(j, u);
    StripNewline(j);
    JustificationFrom(s, s1, s2, j, u);
  }

  /** The steps of `JustificationAt` on a written line, one fact each. */
  lemma JustificationFrom(s: string, s1: string, s2: string, j: string, u: string)
    requires StartsWith(s, "JUSTIFICATION:") && s[14..] == s1
    requires |s1| > 1 && FindBy(s1, NotSpace) == 1 && s1[1..] == s2
    requires |s2| >= |j| + 1 && JustEnd(s2, 1) == |j| + 1
    requires s2[..|j| + 1] == j + "\n" && s2[|j| + 1..] == u && Strip(j + "\n") == j
    ensures JustificationAt(s) == Some((j, u))
  {
  }

  lemma HeadWritten(b: Block, u: string)
    requires Writable(b)
    ensures FieldLine(BlockThen(b, u), "DIMENSION:", IsSpace) == Some((b.name, ScoreLine(b, u)))
  {
    assert ScoreLine(b, u)[0] == 'S';
    FieldWritten("DIMENSION:", b.name, ScoreLine(b, u), IsSpace);
  }

  lemma ScoreWritten(b: Block, u: string)
    requires Writable(b)
    ensures FieldLine(ScoreLine(b, u), "SCORE:", NotDecimal) == Some((b.scoreText, JustLine(b.justification, u)))
  {
    assert JustLine(b.justification, u)[0] == 'J';
    assert IsDecimalChar(b.scoreText[0]);
    FieldWritten("SCORE:", b.scoreText, JustLine(b.justification, u), NotDecimal);
  }

  /** The pattern reads a written block back, and the match ends at the
      block's closing newline. */
  lemma MatchBlock(b: Block, u: string)
    requires Writable(b) && Follows(u)
    ensures MatchAt(BlockThen(b, u)) == Some((b, u))
  {
    HeadWritten(b, u);
    ScoreWritten(b, u);
    JustificationWritten(b.justification, u);
  }

  lemma ScanBlock(b: Block, u: string)
    requires Writable(b) && Follows(u)
    ensures Scan(BlockThen(b, u)) == [b] + Scan(u)
  {
    MatchBlock(b, u);
  }

  /** Reading a written reply gives back its blocks, in order, followed by
      whatever the tail holds. */
  lemma {:induction false} ScanReply(bs: seq<Block>, tail: string)
    requires forall i :: 0 <= i < |bs| ==> Writable(bs[i])
    requires Follows(tail)
    ensures Scan(Reply(bs, tail)) == bs + Scan(tail)
    decreases |bs|
  {
    if bs == [] {
      assert [] + Scan(tail) == Scan(tail);
    } else if |bs| == 1 {
      ScanBlock(bs[0], tail);
      assert bs == [bs[0]];
    } else {
      ScanReply(bs[1..], tail);
      ScanNext(bs, tail);
    }
  }

  /** One block more in front of a reply that reads back. */
  lemma ScanNext(bs: seq<Block>, tail: string)
    requires |bs| > 1 && Writable(bs[0])
    requires Scan(Reply(bs[1..], tail)) == bs[1..] + Scan(tail)
    ensures Scan(Reply(bs, tail)) == bs + Scan(tail)
  {
    var rest := Reply(bs[1..], tail);
    ReplyUnfold(bs, tail);
    ScanFront(bs[0], rest);
    ScanChain(bs, Scan(Reply(bs, tail)), Scan(rest), Scan(tail));
  }

  lemma ScanChain(bs: seq<Block>, whole: seq<Block>, rest: seq<Block>, tail: seq<Block>)
    requires |bs| > 1 && whole == [bs[0]] + rest && rest == bs[1..] + tail
    ensures whole == bs + tail
  {
    ConsAssoc(bs[0], bs[1..], tail);
    assert [bs[0]] + bs[1..] == bs;
  }

  /** A reply of two blocks or more is its first block, a blank line, then
      the reply of the others, which opens with a block. */
  lemma ReplyUnfold(bs: seq<Block>, tail: string)
    requires |bs| > 1
    ensures Reply(bs, tail) == BlockThen(bs[0], "\n" + Reply(bs[1..], tail))
    ensures StartsWith(Reply(bs[1..], tail), "DIMENSION:")
  {
    assert |bs[1..]| >= 1;
  }

  /** A block, a blank line, then a reply starting with the next block. */
  lemma ScanFront(b: Block, rest: string)
    requires Writable(b) && StartsWith(rest, "DIMENSION:")
    ensures Scan(BlockThen(b, "\n" + rest)) == [b] + Scan(rest)
  {
    var u := "\n" + rest;
    assert u[0] == '\n' && u[1..] == rest;
    assert Follows(u);
    ScanBlock(b, u);
    ScanSkip("\n", rest);
  }

  lemma ConsAssoc<T>(x: T, xs: seq<T>, ys: seq<T>)
    ensures [x] + (xs + ys) == ([x] + xs) + ys
  {
  }

  /** Text without a capital D holds no block, so it may be passed over. */
  lemma {:induction false} ScanSkip(w: string, y: string)
    requires forall i :: 0 <= i < |w| ==> w[i] != 'D'
    ensures Scan(w + y) == Scan(y)
    decreases |w|
  {
    if w == [] {
      assert w + y == y;
    } else {
      var t := w + y;
      assert t[0] == w[0] && t[1..] == w[1..] + y;
      PrefixHead(t, "DIMENSION:");
      assert FieldLine(t, "DIMENSION:", IsSpace) == None;
      assert MatchAt(t) == None;
      assert Scan(t) == Scan(t[1..]);
      ScanSkip(w[1..], y);
    }
  }

  lemma OverallLineShape(x: string)
    requires AllDecimal(x)
    ensures Follows(OverallLine(x)) && Scan(OverallLine(x)) == []
  {
    OverallLineFollows(x);
    OverallLineScan(x);
  }

  lemma OverallLineFollows(x: string)
    ensures Follows(OverallLine(x))
  {
    var y1 := "OVERALL:" + (" " + (x + "\n"));
    assert OverallLine(x) == "\n" + y1;
    assert OverallLine(x)[1..] == y1;
    assert y1[..8] == "OVERALL:";
  }

  lemma OverallLineScan(x: string)
    requires AllDecimal(x)
    ensures Scan(OverallLine(x)) == []
  {
    var y3 := x + "\n";
    var y2 := " " + y3;
    var y1 := "OVERALL:" + y2;
    assert OverallLine(x) == "\n" + y1;
    assert Scan(y3) == [] by {
      assert forall i :: 0 <= i < |x| ==> x[i] != 'D';
      ScanSkip(x, "\n");
      ScanSkip("\n", []);
      assert "\n" + [] == "\n";
    }
    assert Scan(y2) == [] by { ScanSkip(" ", y3); }
    assert Scan(y1) == [] by { ScanSkip("OVERALL:", y2); }
    ScanSkip("\n", y1);
  }

  /** A reply in the requested format, with or without the closing
      overall line, yields exactly the written blocks' dimensions. */
  lemma DimensionsRoundTrip(o: Oracles, bs: seq<Block>, tail: string)
    requires bs != [] && forall i :: 0 <= i < |bs| ==> Writable(bs[i])
    requires tail == [] || exists x :: AllDecimal(x) && tail == OverallLine(x)
    ensures ParseDimensions(o, Reply(bs, tail)) == Ok(Dimensions(bs))
  {
    if tail != [] {
      var x :| AllDecimal(x) && tail == OverallLine(x);
      OverallLineShape(x);
    }
    ScanReply(bs, tail);
    assert Scan(Reply(bs, tail)) == bs;
  }

  /** A score written as decimal text within [0, 1] is read back as its value. */
  lemma ScoreRoundTrip(b: Block, n: nat, k: nat)
    requires b.scoreText == DecimalText(n, k) && Ratio(n, Pow10(k)) <= 1.0
    ensures ToDimension(b).score == Ratio(n, Pow10(k))
  {
    DecimalTextRoundTrip(n, k);
    RatioNonNegative(n, Pow10(k));
  }

  // ---------------------------------------------------------------------
  // the overall line of a written reply
  // ---------------------------------------------------------------------

  lemma OverallNoSpace()
    ensures forall i :: 0 <= i < 8 ==> !IsSpace("OVERALL:"[i])
  {
  }

  lemma {:induction false} NoOverallWithoutV(w: string)
    requires 'V' !in w
    ensures !Contains(w, "OVERALL:")
    decreases |w|
  {
    if |w| >= 2 {
      assert w[1] != 'V' && "OVERALL:"[1] == 'V';
    }
    assert !StartsWith(w, "OVERALL:");
    if w != [] {
      assert 'V' !in w[1..];
      NoOverallWithoutV(w[1..]);
    }
  }

  /** `OVERALL:` cannot start inside a word that does not contain it and
      is followed by whitespace. */
  lemma NotOverallStart(w: string, y: string)
    requires !Contains(w, "OVERALL:") && y != [] && IsSpace(y[0])
    ensures !StartsWith(w + y, "OVERALL:")
  {
    if |w| >= 8 {
      assert (w + y)[..8] == w[..8];
    } else {
      OverallNoSpace();
      assert (w + y)[|w|] == y[0];
    }
  }

  /** A word without `OVERALL:`, a whitespace character, then `s`: the
      search finds what it finds in `s`. */
  lemma {:induction false} SkipWord(w: string, c: string, s: string)
    requires |c| == 1 && IsSpace(c[0]) && !Contains(w, "OVERALL:")
    ensures FindOverall(w + (c + s)) == FindOverall(s)
    decreases |w|
  {
    var t := w + (c + s);
    NotOverallStart(w, c + s);
    assert OverallAt(t) == None;
    if w == [] {
      assert t[1..] == s;
    } else {
      assert t[1..] == w[1..] + (c + s);
      SkipWord(w[1..], c, s);
    }
  }

  /** A block whose name and justification do not contain `OVERALL:` is
      passed over by the overall search. */
  lemma SkipBlock(b: Block, u: string)
    requires !Contains(b.name, "OVERALL:") && !Contains(b.justification, "OVERALL:")
    requires AllDecimal(b.scoreText)
    ensures FindOverall(BlockThen(b, u)) == FindOverall(u)
  {
    SkipHead(b, u);
    SkipScore(b, u);
    SkipJust(b.justification, u);
  }

  lemma SkipHead(b: Block, u: string)
    requires !Contains(b.name, "OVERALL:")
    ensures FindOverall(BlockThen(b, u)) == FindOverall(ScoreLine(b, u))
  {
    NoOverallWithoutV("DIMENSION:");
    SkipWord("DIMENSION:", " ", b.name + ("\n" + ScoreLine(b, u)));
    SkipWord(b.name, "\n", ScoreLine(b, u));
  }

  lemma SkipScore(b: Block, u: string)
    requires AllDecimal(b.scoreText)
    ensures FindOverall(ScoreLine(b, u)) == FindOverall(JustLine(b.justification, u))
  {
    NoOverallWithoutV("SCORE:");
    assert forall i :: 0 <= i < |b.scoreText| ==> IsDecimalChar(b.scoreText[i]);
    NoOverallWithoutV(b.scoreText);
    SkipWord("SCORE:", " ", b.scoreText + ("\n" + JustLine(b.justification, u)));
    SkipWord(b.scoreText, "\n", JustLine(b.justification, u));
  }

  lemma SkipJust(j: string, u: string)
    requires !Contains(j, "OVERALL:")
    ensures FindOverall(JustLine(j, u)) == FindOverall(u)
  {
    NoOverallWithoutV("JUSTIFICATION:");
    SkipWord("JUSTIFICATION:", " ", j + ("\n" + u));
    SkipWord(j, "\n", u);
  }

  /** Free of `OVERALL:` where the reply's own text goes. */
  predicate NoOverallIn(b: Block)
  {
    !Contains(b.name, "OVERALL:") && !Contains(b.justification, "OVERALL:")
  }

  lemma {:induction false} SkipReply(bs: seq<Block>, tail: string)
    requires forall i :: 0 <= i < |bs| ==> NoOverallIn(bs[i]) && AllDecimal(bs[i].scoreText)
    ensures FindOverall(Reply(bs, tail)) == FindOverall(tail)
    decreases |bs|
  {
    if |bs| == 1 {
      SkipBlock(bs[0], tail);
    } else if |bs| > 1 {
      var rest := Reply(bs[1..], tail);
      SkipBlock(bs[0], "\n" + rest);
      assert [] + ("\n" + rest) == "\n" + rest;
      SkipWord([], "\n", rest);
      SkipReply(bs[1..], tail);
    }
  }

  lemma FindOverallLine(x: string)
    requires x != [] && AllDecimal(x)
    ensures FindOverall(OverallLine(x)) == Some(x)
  {
    var a := "OVERALL:" + (" " + (x + "\n"));
    assert [] + OverallLine(x) == "\n" + a;
    SkipWord([], "\n", a);
    OverallAtWritten(x);
    assert FindOverall(a) == Some(x) by {
      assert a != [];
    }
  }

  /** The overall line itself, after its newline, captures the value. */
  lemma OverallAtWritten(x: string)
    requires x != [] && AllDecimal(x)
    ensures OverallAt("OVERALL:" + (" " + (x + "\n"))) == Some(x)
  {
    var a := "OVERALL:" + (" " + (x + "\n"));
    assert a[..8] == "OVERALL:" && a[8..] == " " + (x + "\n");
    assert IsDecimalChar(x[0]);
    RunThen(" ", x + "\n", NotSpace);
    RunThen(x, "\n", NotDecimal);
  }

  /** The overall line closing a written reply is the overall score,
      clamped to [0, 1], whenever `float()` accepts it; otherwise the
      score falls back to the mean. */
  lemma OverallRoundTrip(bs: seq<Block>, x: string, ds: seq<ReviewDimension>)
    requires forall i :: 0 <= i < |bs| ==> Writable(bs[i]) && NoOverallIn(bs[i])
    requires x != [] && AllDecimal(x)
    ensures ParseDecimal(x).Some? ==> ParseOverall(Reply(bs, OverallLine(x)), ds) == Clamp01(ParseDecimal(x).value)
    ensures ParseDecimal(x).None? ==> ParseOverall(Reply(bs, OverallLine(x)), ds) == MeanScore(ds)
  {
    SkipReply(bs, OverallLine(x));
    FindOverallLine(x);
  }

  /** A reply written in the format the prompt asks for reads back as its
      blocks and its overall value. */
  lemma ReplyRoundTrip(o: Oracles, bs: seq<Block>, x: string)
    requires bs != [] && forall i :: 0 <= i < |bs| ==> Writable(bs[i]) && NoOverallIn(bs[i])
    requires x != [] && AllDecimal(x) && ParseDecimal(x).Some?
    ensures ParseDimensions(o, Reply(bs, OverallLine(x))) == Ok(Dimensions(bs))
    ensures ParseOverall(Reply(bs, OverallLine(x)), Dimensions(bs)) == Clamp01(ParseDecimal(x).value)
  {
    DimensionsRoundTrip(o, bs, OverallLine(x));
    OverallRoundTrip(bs, x, Dimensions(bs));
  }

  /** No capital O, so no overall line: the mean is used. */
  lemma {:induction false} NoOverallLine(t: string, ds: seq<ReviewDimension>)
    requires forall i :: 0 <= i < |t| ==> t[i] != 'O'
    ensures FindOverall(t) == None && ParseOverall(t, ds) == MeanScore(ds)
    decreases |t|
  {
    if t != [] {
      PrefixHead(t, "OVERALL:");
      assert OverallAt(t) == None;
      NoOverallLine(t[1..], ds);
    }
  }

  // ---------------------------------------------------------------------
  // the JSON form, and reading it back
  // ---------------------------------------------------------------------

  lemma DimensionJsonFields(d: ReviewDimension)
    ensures var f := DimensionJson(d).fields;
      && Get(f, "name", JStr("unknown")) == JStr(d.name)
      && Get(f, "score", JFloat(0.0)) == JFloat(d.score)
      && Get(f, "justification", JStr("")) == JStr(d.justification)
  {
  }

  /** The JSON entries written for dimensions scored within [0, 1] are
      read back as those dimensions. */
  lemma {:induction false} ItemsRoundTrip(ds: seq<ReviewDimension>)
    requires UnitScores(ds)
    ensures FromItems(DimensionsJson(ds)) == Ok(ds)
  {
    if ds != [] {
      var items := DimensionsJson(ds);
      assert items == [DimensionJson(ds[0])] + DimensionsJson(ds[1..]);
      assert UnitScores(ds[1..]) by {
        assert forall i :: 0 <= i < |ds[1..]| ==> ds[1..][i] == ds[i + 1];
      }
      ItemsRoundTrip(ds[1..]);
      ItemHead(ds[0], DimensionsJson(ds[1..]), ds[1..]);
      assert ds == [ds[0]] + ds[1..];
    }
  }

  /** One written entry in front of entries that read back. */
  lemma ItemHead(d: ReviewDimension, tail: seq<Json>, rest: seq<ReviewDimension>)
    requires 0.0 <= d.score <= 1.0 && FromItems(tail) == Ok(rest)
    ensures FromItems([DimensionJson(d)] + tail) == Ok([d] + rest)
  {
    var items := [DimensionJson(d)] + tail;
    assert items[0] == DimensionJson(d) && items[1..] == tail;
    DimensionJsonFields(d);
  }

  /** A reply without blocks that decodes to `{"dimensions": [...]}`
      yields the dimensions listed there. */
  lemma JsonRoundTrip(o: Oracles, response: string, ds: seq<ReviewDimension>)
    requires Scan(response) == []
    requires o.loads(response) == Some(JObj(map["dimensions" := JArr(DimensionsJson(ds))]))
    requires UnitScores(ds)
    ensures ParseDimensions(o, response) == Ok(ds)
  {
    ItemsRoundTrip(ds);
  }

  /** An entry whose score is null ends the list early: the entries
      before it are kept. */
  lemma NullScoreStops(first: ReviewDimension, later: seq<Json>)
    requires 0.0 <= first.score <= 1.0
    ensures FromItems([DimensionJson(first), JObj(map["score" := JNull])] + later) == Ok([first])
  {
    var items := [DimensionJson(first), JObj(map["score" := JNull])] + later;
    assert items[0] == DimensionJson(first);
    DimensionJsonFields(first);
    var tail := items[1..];
    assert tail[0] == JObj(map["score" := JNull]);
    assert Get(map["score" := JNull], "score", JFloat(0.0)) == JNull;
    assert FromItems(tail) == Ok([]);
    assert [first] + [] == [first];
  }
}
