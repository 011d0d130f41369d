/** The slice of Python's `str` behaviour the core relies on: whitespace
    classes, `strip`/`lstrip`/`rstrip`, `split()`, `split(sep)`, `join`,
    `partition`, `lower`, and code-point ordering for `sorted`.
 */
module Text {
  import opened Wrappers

  /** Python's `str.isspace` for one character: the ASCII controls 9-13 and
      28-31, the space, and the Unicode space separators. */
  predicate IsSpace(c: char)
  {
    var n := c as int;
    n == 0x20 || (0x09 <= n <= 0x0D) || (0x1C <= n <= 0x1F) || n == 0x85 || n == 0xA0
    || n == 0x1680 || (0x2000 <= n <= 0x200A) || n == 0x2028 || n == 0x2029
    || n == 0x202F || n == 0x205F || n == 0x3000
  }

  predicate NotSpace(c: char)
  {
    !IsSpace(c)
  }

  predicate NoSpace(s: string)
  {
    forall i :: 0 <= i < |s| ==> !IsSpace(s[i])
  }

  predicate IsDigit(c: char)
  {
    '0' <= c <= '9'
  }

  predicate StartsWith(s: string, prefix: string)
  {
    prefix <= s
  }

  /** `t in s` for strings: `t` occurs somewhere in `s`. */
  predicate Contains(s: string, t: string)
    decreases |s|
  {
    t <= s || (s != [] && Contains(s[1..], t))
  }

  predicate EndsWith(s: string, suffix: string)
  {
    |suffix| <= |s| && s[|s| - |suffix|..] == suffix
  }

  // ---------------------------------------------------------------------
  // strip family
  // ---------------------------------------------------------------------

  /** `s.lstrip(chars)` with the stripped class given as a predicate. */
  function LStripBy(s: string, p: char -> bool): (r: string)
    ensures |r| <= |s|
    ensures r == [] || !p(r[0])
  {
    if s == [] || !p(s[0]) then s else LStripBy(s[1..], p)
  }

  /** What `LStripBy` removes is a prefix of stripped characters. */
  lemma LStripByShape(s: string, p: char -> bool)
    ensures var r := LStripBy(s, p); s == s[..|s| - |r|] + r && forall i :: 0 <= i < |s| - |r| ==> p(s[i])
  {
    LStripBySuffix(s, p);
    var k := |s| - |LStripBy(s, p)|;
    assert s == s[..k] + s[k..];
  }

  /** The stripped text is the input's tail after a run of stripped characters. */
  lemma {:induction false} LStripBySuffix(s: string, p: char -> bool)
    ensures var r := LStripBy(s, p); s[|s| - |r|..] == r && forall i :: 0 <= i < |s| - |r| ==> p(s[i])
  {
    if s != [] && p(s[0]) {
      var t := s[1..];
      LStripBySuffix(t, p);
      var r := LStripBy(t, p);
      assert s[|s| - |r|..] == t[|t| - |r|..];
      assert forall i :: 1 <= i < |s| - |r| ==> s[i] == t[i - 1];
    }
  }

  /** `s.rstrip(chars)` with the stripped class given as a predicate. */
  function RStripBy(s: string, p: char -> bool): (r: string)
    ensures |r| <= |s|
    ensures r == [] || !p(r[|r| - 1])
  {
    if s == [] || !p(s[|s| - 1]) then s else RStripBy(s[..|s| - 1], p)
  }

  /** What `RStripBy` removes is a suffix of stripped characters. */
  lemma {:induction false} RStripByShape(s: string, p: char -> bool)
    ensures var r := RStripBy(s, p); s == r + s[|r|..] && forall i :: |r| <= i < |s| ==> p(s[i])
  {
    if s != [] && p(s[|s| - 1]) {
      RStripByShape(s[..|s| - 1], p);
      assert s == s[..|s| - 1] + [s[|s| - 1]];
    }
  }

  function StripBy(s: string, p: char -> bool): (r: string)
    ensures r == [] || (!p(r[0]) && !p(r[|r| - 1]))
    ensures |r| <= |s|
  {
    var l := LStripBy(s, p);
    var r := RStripBy(l, p);
    RStripByShape(l, p);
    assert r == [] || r[0] == l[0];
    r
  }

  function Strip(s: string): string
  {
    StripBy(s, IsSpace)
  }

  function LStrip(s: string): string
  {
    LStripBy(s, IsSpace)
  }

  /** `s.strip(chars)` for an explicit character set. */
  function StripChars(s: string, chars: set<char>): string
  {
    StripBy(s, c => c in chars)
  }

  function LStripChars(s: string, chars: set<char>): string
  {
    LStripBy(s, c => c in chars)
  }

  /** `s.strip()` is empty exactly when every character is whitespace. */
  lemma {:induction false} StripEmptyIffBlank(s: string)
    ensures Strip(s) == [] <==> forall i :: 0 <= i < |s| ==> IsSpace(s[i])
  {
    var l := LStripBy(s, IsSpace);
    var r := RStripBy(l, IsSpace);
    LStripByShape(s, IsSpace);
    RStripByShape(l, IsSpace);
    if l != [] {
      assert s[|s| - |l|] == l[0];
      assert !IsSpace(l[0]);
      assert |r| > 0;
    }
  }

  // ---------------------------------------------------------------------
  // split and join
  // ---------------------------------------------------------------------

  /** Index of the first character satisfying `p`, or `|s|`. */
  function FindBy(s: string, p: char -> bool): (k: nat)
    ensures k <= |s|
    ensures forall i :: 0 <= i < k ==> !p(s[i])
    ensures k < |s| ==> p(s[k])
  {
    if s == [] then 0 else if p(s[0]) then 0 else 1 + FindBy(s[1..], p)
  }

  /** `FindBy` stops at the first character satisfying `p`. */
  lemma FindByAt(s: string, p: char -> bool, k: nat)
    requires k < |s| && p(s[k])
    requires forall i :: 0 <= i < k ==> !p(s[i])
    ensures FindBy(s, p) == k
  {
  }

  /** Python's `s.split()`: the maximal runs of non-whitespace. */
  function SplitWs(s: string): (r: seq<string>)
    ensures forall i :: 0 <= i < |r| ==> r[i] != [] && NoSpace(r[i])
    decreases |s|
  {
    if s == [] then []
    else if IsSpace(s[0]) then SplitWs(s[1..])
    else
      var k := FindBy(s, IsSpace);
      var rest := SplitWs(s[k..]);
      WordCons(s[..k], rest);
      [s[..k]] + rest
  }

  /** The non-space characters of a text, in order. */
  function NonSpaceChars(s: string): (r: string)
    ensures |r| <= |s|
  {
    if s == [] then [] else (if IsSpace(s[0]) then [] else [s[0]]) + NonSpaceChars(s[1..])
  }

  /** The words written one after the other. */
  function Concat(ws: seq<string>): string
  {
    if ws == [] then [] else ws[0] + Concat(ws[1..])
  }

  /** `str.split()` drops exactly the white space: its words, written one
      after the other, are the text's non-space characters in order. */
  lemma {:induction false} SplitWsChars(s: string)
    ensures Concat(SplitWs(s)) == NonSpaceChars(s)
    decreases |s|
  {
    if s != [] {
      if IsSpace(s[0]) {
        SplitWsChars(s[1..]);
      } else {
        var k := FindBy(s, IsSpace);
        var w, t := s[..k], s[k..];
        SplitWsChars(t);
        assert s == w + t;
        NonSpaceAppend(w, t);
        NonSpaceOfWord(w);
        var rest := SplitWs(t);
        assert SplitWs(s) == [w] + rest;
        assert ([w] + rest)[1..] == rest;
      }
    }
  }

  /** A word followed by nothing or by white space splits off as one word. */
  lemma SplitWsAfterWord(w: string, t: string)
    requires w != [] && NoSpace(w)
    requires t == [] || IsSpace(t[0])
    ensures SplitWs(w + t) == [w] + SplitWs(t)
  {
    var s := w + t;
    var k := FindBy(s, IsSpace);
    assert s[|w|..] == t;
    assert s[..k] == w;
  }

  /** Splitting words joined by single spaces gives the words back. */
  lemma {:induction false} SplitWsJoin(words: seq<string>)
    requires forall i :: 0 <= i < |words| ==> words[i] != [] && NoSpace(words[i])
    ensures SplitWs(Join(words, " ")) == words
  {
    if |words| == 1 {
      SplitWsAfterWord(words[0], []);
      assert words[0] + [] == words[0];
    } else if |words| > 1 {
      var w, j := words[0], Join(words[1..], " ");
      SplitWsJoin(words[1..]);
      assert Join(words, " ") == w + (" " + j);
      SplitWsAfterWord(w, " " + j);
      assert (" " + j)[1..] == j;
      assert words == [w] + words[1..];
    }
  }

  lemma {:induction false} NonSpaceAppend(a: string, b: string)
    ensures NonSpaceChars(a + b) == NonSpaceChars(a) + NonSpaceChars(b)
  {
    if a == [] {
      assert a + b == b;
    } else {
      var ab := a + b;
      assert ab[0] == a[0] && ab[1..] == a[1..] + b;
      NonSpaceAppend(a[1..], b);
      var h := if IsSpace(a[0]) then [] else [a[0]];
      ConsAppend(NonSpaceChars(ab), h, NonSpaceChars(a[1..] + b), NonSpaceChars(a), NonSpaceChars(a[1..]), NonSpaceChars(b));
    }
  }

  lemma {:induction false} NonSpaceOfWord(w: string)
    requires NoSpace(w)
    ensures NonSpaceChars(w) == w
  {
    if w != [] {
      assert NoSpace(w[1..]) by { assert forall i :: 0 <= i < |w[1..]| ==> w[1..][i] == w[i + 1]; }
      NonSpaceOfWord(w[1..]);
      assert w == [w[0]] + w[1..];
    }
  }

  /** The step both append lemmas share: a head in front of the two parts. */
  lemma ConsAppend<T>(whole: seq<T>, head: seq<T>, rest: seq<T>, first: seq<T>, firstRest: seq<T>, second: seq<T>)
    requires whole == head + rest && rest == firstRest + second && first == head + firstRest
    ensures whole == first + second
  {
  }

  lemma WordCons(w: string, rest: seq<string>)
    requires w != [] && NoSpace(w)
    requires forall i :: 0 <= i < |rest| ==> rest[i] != [] && NoSpace(rest[i])
    ensures forall i :: 0 <= i < |[w] + rest| ==> ([w] + rest)[i] != [] && NoSpace(([w] + rest)[i])
  {
    var r := [w] + rest;
    forall i | 0 <= i < |r| ensures r[i] != [] && NoSpace(r[i]) {
      if i > 0 { assert r[i] == rest[i - 1]; }
    }
  }

  function Join(parts: seq<string>, sep: string): (r: string)
    ensures |parts| == 1 ==> r == parts[0]
    ensures parts == [] ==> r == []
  {
    if parts == [] then []
    else if |parts| == 1 then parts[0]
    else parts[0] + sep + Join(parts[1..], sep)
  }

  /** Index of the first occurrence of `c`, or `|s|`. */
  function FindChar(s: string, c: char): (k: nat)
    ensures k <= |s|
    ensures c !in s[..k]
    ensures k < |s| ==> s[k] == c
  {
    if s == [] then 0 else if s[0] == c then 0 else 1 + FindChar(s[1..], c)
  }

  /** Python's `s.split(sep)` for a one-character separator. */
  function SplitOn(s: string, sep: char): (r: seq<string>)
    ensures |r| >= 1
    ensures forall i :: 0 <= i < |r| ==> sep !in r[i]
    decreases |s|
  {
    var k := FindChar(s, sep);
    if k == |s| then [s] else [s[..k]] + SplitOn(s[k + 1..], sep)
  }

  /** Joining the pieces of a split with the separator gives back the text. */
  lemma {:induction false} JoinSplitOn(s: string, sep: char)
    ensures Join(SplitOn(s, sep), [sep]) == s
    decreases |s|
  {
    var k := FindChar(s, sep);
    if k < |s| {
      var rest := SplitOn(s[k + 1..], sep);
      JoinSplitOn(s[k + 1..], sep);
      assert SplitOn(s, sep) == [s[..k]] + rest;
      assert s == s[..k] + [sep] + s[k + 1..];
    }
  }

  /** Splitting text built by joining separator-free pieces gives the pieces back. */
  lemma {:induction false} SplitOnJoin(parts: seq<string>, sep: char)
    requires |parts| >= 1
    requires forall i :: 0 <= i < |parts| ==> sep !in parts[i]
    ensures SplitOn(Join(parts, [sep]), sep) == parts
    decreases |parts|
  {
    var p0 := parts[0];
    if |parts| == 1 {
      FindAbsent(p0, sep);
    } else {
      var s := Join(parts, [sep]);
      var tail := Join(parts[1..], [sep]);
      assert s == p0 + ([sep] + tail);
      FindPrefix(p0, [sep] + tail, sep);
      assert s[..|p0|] == p0;
      assert s[|p0| + 1..] == tail;
      SplitOnJoin(parts[1..], sep);
      assert SplitOn(s, sep) == [p0] + SplitOn(tail, sep);
    }
  }

  /** Searching past a separator-free prefix lands at the first separator after it. */
  lemma {:induction false} FindPrefix(a: string, b: string, sep: char)
    requires sep !in a && b != [] && b[0] == sep
    ensures FindChar(a + b, sep) == |a|
  {
    if a != [] {
      assert (a + b)[1..] == a[1..] + b;
      FindPrefix(a[1..], b, sep);
    } else {
      assert a + b == b;
    }
  }

  /** The first separator splits the text into what precedes it and what follows it. */
  lemma PartitionAt(a: string, b: string, c: char)
    requires c !in a
    ensures Partition(a + [c] + b, c) == (a, b)
  {
    var s := a + [c] + b;
    assert s == a + ([c] + b);
    FindPrefix(a, [c] + b, c);
    assert s[..|a|] == a && s[|a| + 1..] == b;
  }

  lemma {:induction false} FindAbsent(a: string, sep: char)
    requires sep !in a
    ensures FindChar(a, sep) == |a|
  {
    if a != [] {
      FindAbsent(a[1..], sep);
    }
  }

  /** `s.partition(c)`: text before the first `c` and text after it. */
  function Partition(s: string, c: char): (r: (string, string))
    ensures c in s ==> s == r.0 + [c] + r.1 && c !in r.0
    ensures c !in s ==> r == (s, [])
  {
    var k := FindChar(s, c);
    if k == |s| then (s, [])
    else (s[..k], s[k + 1..])
  }

  // ---------------------------------------------------------------------
  // case and numbers
  // ---------------------------------------------------------------------

  function LowerChar(c: char): char
  {
    if 'A' <= c <= 'Z' then (c as int + 32) as char else c
  }

  /** `s.lower()` over ASCII letters. */
  function Lower(s: string): (r: string)
    ensures |r| == |s|
    ensures forall i :: 0 <= i < |s| ==> r[i] == LowerChar(s[i])
  {
    seq(|s|, i requires 0 <= i < |s| => LowerChar(s[i]))
  }

  function DigitChar(d: nat): char
    requires d < 10
  {
    ('0' as int + d) as char
  }

  /** Python's `str(n)` for a natural number. */
  function NatToString(n: nat): (r: string)
    ensures r != [] && forall i :: 0 <= i < |r| ==> IsDigit(r[i])
  {
    if n < 10 then [DigitChar(n)] else NatToString(n / 10) + [DigitChar(n % 10)]
  }

  /** Python's `str(i)` for an integer. */
  function IntToString(i: int): string
  {
    if i < 0 then "-" + NatToString(-i) else NatToString(i)
  }

  /** Python's `repr` of a string: single quotes unless the text holds a
      single quote and no double quote; backslash, the chosen quote, newline,
      carriage return and tab are escaped, and so is every other character
      below U+0100 that Python does not count as printable. */
  function Repr(s: string): (r: string)
    ensures |r| >= 2 && r[0] == r[|r| - 1]
    ensures r[0] == '\'' || r[0] == '"'
    ensures r[0] == '"' <==> '\'' in s && '"' !in s
    ensures Unescape(r[1..|r| - 1]) == Some(s)
  {
    var q := if '\'' in s && '"' !in s then '"' else '\'';
    var r := [q] + Escape(s, q) + [q];
    assert r[1..|r| - 1] == Escape(s, q);
    UnescapeEscape(s, q);
    r
  }

  /** The characters below U+0100 that `str.isprintable` rejects: the C0
      controls, DEL, the C1 controls, no-break space and soft hyphen. */
  predicate HexEscaped(c: char)
  {
    c < ' ' || (0x7f <= c as int <= 0xa0) || c as int == 0xad
  }

  function HexDigit(d: nat): char
    requires d < 16
  {
    "0123456789abcdef"[d]
  }

  function HexValue(c: char): (r: Option<nat>)
    ensures r.Some? ==> r.value < 16
  {
    if '0' <= c <= '9' then Some(c as int - '0' as int)
    else if 'a' <= c <= 'f' then Some(c as int - 'a' as int + 10)
    else None
  }

  /** One character as `repr` writes it. */
  function EscapeChar(c: char, quote: char): (e: string)
    ensures e != []
    ensures e[0] != '\\' <==> e == [c]
  {
    if c == '\\' then "\\\\"
    else if c == quote then ['\\', quote]
    else if c == '\n' then "\\n"
    else if c == '\r' then "\\r"
    else if c == '\t' then "\\t"
    else if HexEscaped(c) then ['\\', 'x', HexDigit(c as int / 16), HexDigit(c as int % 16)]
    else [c]
  }

  function Escape(s: string, quote: char): string
  {
    if s == [] then [] else EscapeChar(s[0], quote) + Escape(s[1..], quote)
  }

  /** Reading the escapes back: `\\xNN` is the character with that code, and
      a backslash before any other character stands for it, or for the
      control character `n`, `r` or `t` names. */
  function Unescape(t: string): (r: Option<string>)
    decreases |t|
  {
    if t == [] then Some([])
    else if t[0] != '\\' then Prepend(t[0], Unescape(t[1..]))
    else if |t| < 2 then None
    else if t[1] == 'x' then
      if |t| < 4 || HexValue(t[2]).None? || HexValue(t[3]).None? then None
      else Prepend((16 * HexValue(t[2]).value + HexValue(t[3]).value) as char, Unescape(t[4..]))
    else
      var c := if t[1] == 'n' then '\n' else if t[1] == 'r' then '\r' else if t[1] == 't' then '\t' else t[1];
      Prepend(c, Unescape(t[2..]))
  }

  function Prepend(c: char, rest: Option<string>): (r: Option<string>)
    ensures r.Some? <==> rest.Some?
    ensures r.Some? ==> r.value == [c] + rest.value
  {
    match rest
    case None => None
    case Some(u) => Some([c] + u)
  }

  lemma HexRoundTrip(c: char)
    requires c as int < 256
    ensures HexValue(HexDigit(c as int / 16)) == Some(c as int / 16)
    ensures HexValue(HexDigit(c as int % 16)) == Some(c as int % 16)
    ensures (16 * (c as int / 16) + c as int % 16) as char == c
  {
  }

  /** One escaped character reads back as itself, ahead of whatever follows. */
  lemma UnescapeChar(c: char, quote: char, rest: string)
    requires quote != 'n' && quote != 'r' && quote != 't' && quote != 'x'
    ensures Unescape(EscapeChar(c, quote) + rest) == Prepend(c, Unescape(rest))
  {
    var e := EscapeChar(c, quote);
    var t := e + rest;
    if e == [c] {
      assert t[1..] == rest;
    } else if HexEscaped(c) && c != '\n' && c != '\r' && c != '\t' && c != quote && c != '\\' {
      HexRoundTrip(c);
      assert t[4..] == rest;
    } else {
      assert t[2..] == rest;
    }
  }

  lemma {:induction false} UnescapeEscape(s: string, quote: char)
    requires quote == '\'' || quote == '"'
    ensures Unescape(Escape(s, quote)) == Some(s)
  {
    if s != [] {
      UnescapeEscape(s[1..], quote);
      UnescapeChar(s[0], quote, Escape(s[1..], quote));
      assert s == [s[0]] + s[1..];
    }
  }

  /** An identifier made of lower-case letters, digits and underscores. */
  predicate PlainName(s: string)
  {
    forall i :: 0 <= i < |s| ==> 'a' <= s[i] <= 'z' || IsDigit(s[i]) || s[i] == '_'
  }

  /** Such a name needs no escaping. */
  lemma {:induction false} EscapePlain(s: string, quote: char)
    requires PlainName(s) && (quote == '\'' || quote == '"')
    ensures Escape(s, quote) == s
  {
    if s != [] {
      EscapePlain(s[1..], quote);
      assert s == [s[0]] + s[1..];
    }
  }

  /** `repr` of a plain name is the name in single quotes. */
  lemma ReprPlain(s: string)
    requires PlainName(s)
    ensures Repr(s) == "'" + s + "'"
  {
    EscapePlain(s, '\'');
  }

  /** Neither starts nor ends with whitespace. */
  predicate Trimmed(s: string)
  {
    s == [] || (!IsSpace(s[0]) && !IsSpace(s[|s| - 1]))
  }

  /** Text that neither starts nor ends with whitespace is its own `strip()`. */
  lemma StripTrimmed(s: string)
    requires Trimmed(s)
    ensures Strip(s) == s && LStrip(s) == s
  {
  }
}
