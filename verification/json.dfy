/** Parsed JSON (and YAML) values as Python holds them after `json.load`,
    with the conversions the core applies to them: truthiness, `dict.get`
    with a default, `float()`, `int()` and `str()`.
 */
module Json {
  import opened Wrappers
  import opened Text
  import opened Numbers

  datatype Json =
    | JNull
    | JBool(b: bool)
    | JInt(i: int)
    | JFloat(f: real)
    | JStr(s: string)
    | JArr(items: seq<Json>)
    | JObj(fields: map<string, Json>)

  /** Python's `bool(v)`. */
  predicate Truthy(v: Json)
  {
    match v
    case JNull => false
    case JBool(b) => b
    case JInt(i) => i != 0
    case JFloat(f) => f != 0.0
    case JStr(s) => s != []
    case JArr(items) => items != []
    case JObj(fields) => fields != map[]
  }

  /** `d.get(key, default)`. */
  function Get(d: map<string, Json>, key: string, default: Json): (v: Json)
    ensures key in d ==> v == d[key]
    ensures key !in d ==> v == default
  {
    if key in d then d[key] else default
  }

  /** A value the model reads as text; another JSON type is not represented. */
  function TextOf(v: Json, key: string): (r: Result<string>)
    ensures r.Ok? <==> v.JStr?
    ensures r.Ok? ==> r.value == v.s
  {
    if v.JStr? then Ok(v.s) else Err(Unsupported("non-string value for " + key))
  }

  /** The name `type(v).__name__` gives. */
  function TypeName(v: Json): string
  {
    match v
    case JNull => "NoneType"
    case JBool(_) => "bool"
    case JInt(_) => "int"
    case JFloat(_) => "float"
    case JStr(_) => "str"
    case JArr(_) => "list"
    case JObj(_) => "dict"
  }

  /** The `AttributeError` text for calling `.get` on a value that is not a dict. */
  function NoGetMessage(v: Json): string
  {
    "'" + TypeName(v) + "' object has no attribute 'get'"
  }

  /** The `TypeError` text for a conversion given the wrong type of value. */
  function ArgumentMessage(what: string, v: Json): string
  {
    what + ", not '" + TypeName(v) + "'"
  }

  /** An optional leading sign, as `float()` and `int()` accept it. */
  function SplitSign(t: string): (r: (bool, string))
    ensures (t != [] && (t[0] == '-' || t[0] == '+')) ==> r == (t[0] == '-', t[1..])
    ensures (t == [] || (t[0] != '-' && t[0] != '+')) ==> r == (false, t)
  {
    if t != [] && (t[0] == '-' || t[0] == '+') then (t[0] == '-', t[1..]) else (false, t)
  }

  /** The characters beyond digits, dot and sign that `float()` can accept:
      an exponent, `inf`/`infinity`/`nan` in any case, digit-group
      underscores. Text holding one of them is not modelled. */
  predicate HasLiteralLetter(s: string)
  {
    exists i :: 0 <= i < |s| && s[i] in "eEiInNaAfFtTyY_"
  }

  /** `float(s)` for a string: surrounding whitespace, one sign, then digits
      with at most one dot. */
  function FloatOfText(s: string): (r: Result<real>)
    ensures r.Err? ==> r.error == ValueError("could not convert string to float: " + Repr(s)) || r.error.Unsupported?
    ensures r.Err? && !HasLiteralLetter(s) ==> r.error == ValueError("could not convert string to float: " + Repr(s))
  {
    var (neg, body) := SplitSign(Strip(s));
    match ParseDecimal(body)
    case Some(x) => Ok(if neg then -x else x)
    case None =>
      if HasLiteralLetter(s) then Err(Unsupported("float() of exponent, infinity, NaN or underscore text"))
      else Err(ValueError("could not convert string to float: " + Repr(s)))
  }

  /** `float(v)`. */
  function PyFloat(v: Json): (r: Result<real>)
    ensures v.JInt? ==> r == Ok(v.i as real)
    ensures v.JFloat? ==> r == Ok(v.f)
    ensures v.JBool? ==> r == Ok(if v.b then 1.0 else 0.0)
    ensures (v.JNull? || v.JArr? || v.JObj?) <==> r.Err? && r.error.TypeError?
  {
    match v
    case JBool(b) => Ok(if b then 1.0 else 0.0)
    case JInt(i) => Ok(i as real)
    case JFloat(f) => Ok(f)
    case JStr(s) => FloatOfText(s)
    case _ => Err(TypeError(ArgumentMessage("float() argument must be a string or a real number", v)))
  }

  /** Truncation toward zero, as `int()` applies it to a float. */
  function Trunc(f: real): (r: int)
    ensures f >= 0.0 ==> r as real <= f < r as real + 1.0
    ensures f < 0.0 ==> r as real - 1.0 < f <= r as real
  {
    if f >= 0.0 then f.Floor else -((-f).Floor)
  }

  /** `int(s)` for a string: surrounding whitespace, one sign, then digits. */
  function IntOfText(s: string): (r: Result<int>)
    ensures r.Err? ==> r.error == ValueError("invalid literal for int() with base 10: " + Repr(s)) || r.error.Unsupported?
    ensures r.Err? && '_' !in s ==> r.error == ValueError("invalid literal for int() with base 10: " + Repr(s))
  {
    var (neg, body) := SplitSign(Strip(s));
    if body != [] && AllDigits(body) then
      Ok(if neg then -(DigitsValue(body) as int) else DigitsValue(body))
    else if '_' in s then
      Err(Unsupported("int() of text with digit-group underscores"))
    else
      Err(ValueError("invalid literal for int() with base 10: " + Repr(s)))
  }

  /** `int(v)`. */
  function PyInt(v: Json): (r: Result<int>)
    ensures v.JInt? ==> r == Ok(v.i)
    ensures v.JBool? ==> r == Ok(if v.b then 1 else 0)
    ensures (v.JNull? || v.JArr? || v.JObj?) <==> r.Err? && r.error.TypeError?
  {
    match v
    case JBool(b) => Ok(if b then 1 else 0)
    case JInt(i) => Ok(i)
    case JFloat(f) => Ok(Trunc(f))
    case JStr(s) => IntOfText(s)
    case _ => Err(TypeError(ArgumentMessage("int() argument must be a string, a bytes-like object or a real number", v)))
  }

  /** `str(v)`; floats, lists and dicts go through the given `repr`. */
  function PyStr(repr: Json -> string, v: Json): (r: string)
    ensures v.JStr? ==> r == v.s
  {
    match v
    case JStr(s) => s
    case JInt(i) => IntToString(i)
    case JBool(b) => if b then "True" else "False"
    case JNull => "None"
    case _ => repr(v)
  }

  /** Text that starts and ends with a digit reaches `float()` and `int()`
      unchanged: nothing to strip and no sign. */
  lemma PlainText(t: string)
    requires t != [] && IsDigit(t[0]) && IsDigit(t[|t| - 1])
    ensures SplitSign(Strip(t)) == (false, t)
  {
    StripTrimmed(t);
  }

  /** `float()` reads back a decimal `n / 10^k` written out as text. */
  lemma FloatOfDecimalText(n: nat, k: nat)
    ensures PyFloat(JStr(DecimalText(n, k))) == Ok(Ratio(n, Pow10(k)))
  {
    var t := DecimalText(n, k);
    DecimalTextRoundTrip(n, k);
    DecimalTextShape(n, k);
    FloatOfPlainText(t, Ratio(n, Pow10(k)));
  }

  lemma FloatOfPlainText(t: string, x: real)
    requires t != [] && IsDigit(t[0]) && IsDigit(t[|t| - 1])
    requires ParseDecimal(t) == Some(x)
    ensures FloatOfText(t) == Ok(x)
  {
    PlainText(t);
  }

  /** `DecimalText` starts with a digit and ends with a digit. */
  lemma DecimalTextShape(n: nat, k: nat)
    ensures var t := DecimalText(n, k); |t| > 0 && IsDigit(t[0]) && IsDigit(t[|t| - 1])
  {
    var p := Padded(n, k);
    assert IsDigit(p[0]) && IsDigit(p[|p| - 1]);
  }

  /** `int(str(n))` is `n` for a natural number. */
  lemma IntOfNatText(n: nat)
    ensures IntOfText(NatToString(n)) == Ok(n)
  {
    var d := NatToString(n);
    DigitsValueOfNat(n);
    assert IsDigit(d[0]) && IsDigit(d[|d| - 1]);
    PlainText(d);
  }

  /** `int(str(i))` is `i`. */
  lemma IntOfIntText(i: int)
    ensures PyInt(JStr(IntToString(i))) == Ok(i)
  {
    if i >= 0 {
      IntOfNatText(i);
    } else {
      var d := NatToString(-i);
      var t := "-" + d;
      DigitsValueOfNat(-i);
      assert IsDigit(d[|d| - 1]) && t[|t| - 1] == d[|d| - 1];
      StripTrimmed(t);
      assert t[1..] == d;
      assert SplitSign(Strip(t)) == (true, d);
    }
  }
}
