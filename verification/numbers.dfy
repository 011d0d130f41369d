/** Numeric helpers: clamping to [0, 1], Python's `float()` on a run of
    digits and dots, and the arithmetic mean.  Reals stand for Python
    floats; rounding is not modelled.
 */
module Numbers {
  import opened Wrappers
  import opened Text

  /** `max(0.0, min(1.0, x))`. */
  function Clamp01(x: real): (r: real)
    ensures 0.0 <= r <= 1.0
    ensures 0.0 <= x <= 1.0 ==> r == x
    ensures x < 0.0 ==> r == 0.0
    ensures x > 1.0 ==> r == 1.0
  {
    if x < 0.0 then 0.0 else if x > 1.0 then 1.0 else x
  }

  function Pow10(k: nat): (p: nat)
    ensures p >= 1
  {
    if k == 0 then 1 else 10 * Pow10(k - 1)
  }

  predicate AllDigits(s: string)
  {
    forall i :: 0 <= i < |s| ==> IsDigit(s[i])
  }

  function DigitValue(c: char): nat
    requires IsDigit(c)
  {
    c as int - '0' as int
  }

  /** The natural number a string of decimal digits denotes. */
  function DigitsValue(s: string): nat
    requires AllDigits(s)
  {
    if s == [] then 0 else DigitsValue(s[..|s| - 1]) * 10 + DigitValue(s[|s| - 1])
  }

  predicate IsDecimalChar(c: char)
  {
    IsDigit(c) || c == '.'
  }

  /** Every character is a digit or a dot: what `[0-9.]+` admits. */
  predicate AllDecimal(s: string)
  {
    forall i :: 0 <= i < |s| ==> IsDecimalChar(s[i])
  }

  predicate HasDigit(s: string)
  {
    exists i :: 0 <= i < |s| && IsDigit(s[i])
  }

  function CountChar(s: string, c: char): nat
  {
    if s == [] then 0 else (if s[0] == c then 1 else 0) + CountChar(s[1..], c)
  }

  /** Python's `float(s)` for a string that a `[0-9.]+` pattern matched:
      it parses exactly when there is at most one dot and at least one digit
      (so "1.", ".5" and "7" parse, while "." and "1.2.3" raise). */
  function ParseDecimal(s: string): (r: Option<real>)
    ensures r.Some? <==> AllDecimal(s) && CountChar(s, '.') <= 1 && HasDigit(s)
  {
    if !AllDecimal(s) then
      None
    else
      var (a, b) := Partition(s, '.');
      DecimalShape(s);
      if '.' in b || (a == [] && b == []) then None
      else Some(DecimalValue(a, b))
  }

  /** The number written `a.b`: the integer `ab` over `10^|b|`. */
  function DecimalValue(a: string, b: string): real
    requires AllDigits(a) && AllDigits(b)
  {
    Ratio(DigitsValue(a) * Pow10(|b|) + DigitsValue(b), Pow10(|b|))
  }

  /** `x / q` over the reals. */
  function Ratio(x: nat, q: nat): real
    requires q >= 1
  {
    x as real / q as real
  }

  lemma RatioNonNegative(x: nat, q: nat)
    requires q >= 1
    ensures Ratio(x, q) >= 0.0
  {
    var a, b := x as real, q as real;
    assert b > 0.0;
    assert a / b * b == a;
  }

  /** The two sides of the first dot of a digits-and-dots text. */
  lemma DecimalShape(s: string)
    requires AllDecimal(s)
    ensures var (a, b) := Partition(s, '.');
      (CountChar(s, '.') <= 1 <==> '.' !in b)
      && ('.' !in b ==> AllDigits(a) && AllDigits(b))
      && ('.' !in b ==> ((a == [] && b == []) <==> !HasDigit(s)))
  {
    var (a, b) := Partition(s, '.');
    DotCount(s);
    if '.' in b { CountPresent(b, '.'); } else { CountAbsent(b, '.'); }
    DecimalSides(s);
  }

  lemma DotCount(s: string)
    ensures var (a, b) := Partition(s, '.');
      CountChar(s, '.') == if '.' in s then 1 + CountChar(b, '.') else 0
  {
    var (a, b) := Partition(s, '.');
    if '.' in s {
      CountAppend(a + ['.'], b, '.');
      CountAppend(a, ['.'], '.');
      CountAbsent(a, '.');
    } else {
      CountAbsent(s, '.');
    }
  }

  lemma DecimalSides(s: string)
    requires AllDecimal(s)
    ensures var (a, b) := Partition(s, '.');
      AllDigits(a)
      && ('.' !in b ==> AllDigits(b))
      && ('.' !in b ==> ((a == [] && b == []) <==> !HasDigit(s)))
  {
    var (a, b) := Partition(s, '.');
    if '.' in s {
      assert forall i :: 0 <= i < |a| ==> a[i] == s[i];
      assert forall i :: 0 <= i < |b| ==> b[i] == s[|a| + 1 + i];
      if a != [] { assert IsDigit(s[0]); }
      if b != [] && '.' !in b { assert IsDigit(s[|a| + 1]); }
      if a == [] && b == [] { assert s == ['.']; }
    } else {
      if s != [] { assert IsDigit(s[0]); }
    }
  }

  lemma {:induction false} CountPresent(a: string, c: char)
    requires c in a
    ensures CountChar(a, c) >= 1
  {
    if a[0] != c { CountPresent(a[1..], c); }
  }

  lemma {:induction false} CountAppend(a: string, b: string, c: char)
    ensures CountChar(a + b, c) == CountChar(a, c) + CountChar(b, c)
  {
    if a != [] {
      assert (a + b)[1..] == a[1..] + b;
      CountAppend(a[1..], b, c);
    } else {
      assert a + b == b;
    }
  }

  lemma {:induction false} CountAbsent(a: string, c: char)
    requires c !in a
    ensures CountChar(a, c) == 0
  {
    if a != [] { CountAbsent(a[1..], c); }
  }

  /** `k` zeros. */
  function Zeros(k: nat): (z: string)
    ensures |z| == k && forall i :: 0 <= i < k ==> z[i] == '0'
  {
    if k == 0 then [] else Zeros(k - 1) + "0"
  }

  /** The text of `n / 10^k` with exactly `k` digits after the dot (no dot
      when `k == 0`), as a model writes "0.85" for 85 hundredths. */
  function DecimalText(n: nat, k: nat): (t: string)
  {
    var p := Padded(n, k);
    if k == 0 then p else p[..|p| - k] + "." + p[|p| - k..]
  }

  lemma {:induction false} DigitsValueOfNat(n: nat)
    ensures AllDigits(NatToString(n)) && DigitsValue(NatToString(n)) == n
  {
    if n >= 10 {
      DigitsValueOfNat(n / 10);
      var d := NatToString(n);
      assert d[..|d| - 1] == NatToString(n / 10);
    }
  }

  lemma {:induction false} DigitsValueAppend(a: string, b: string)
    requires AllDigits(a) && AllDigits(b)
    ensures AllDigits(a + b)
    ensures DigitsValue(a + b) == DigitsValue(a) * Pow10(|b|) + DigitsValue(b)
    decreases |b|
  {
    if b == [] {
      assert a + b == a;
    } else {
      var b' := b[..|b| - 1];
      assert (a + b)[..|a + b| - 1] == a + b';
      DigitsValueAppend(a, b');
      var x, p, y, d := DigitsValue(a), Pow10(|b'|), DigitsValue(b'), DigitValue(b[|b| - 1]);
      assert DigitsValue(a + b) == (x * p + y) * 10 + d;
      assert DigitsValue(b) == y * 10 + d;
      assert Pow10(|b|) == p * 10;
      MulAssoc10(x, p);
    }
  }

  lemma MulAssoc10(x: int, p: int)
    ensures (x * p + 0) * 10 == x * (p * 10)
  {
  }

  lemma {:induction false} DigitsValueZeros(k: nat)
    ensures AllDigits(Zeros(k)) && DigitsValue(Zeros(k)) == 0
  {
    if k > 0 {
      DigitsValueZeros(k - 1);
      assert Zeros(k)[..k - 1] == Zeros(k - 1);
    }
  }

  /** `float()` reads back the number `DecimalText` wrote. */
  lemma DecimalTextRoundTrip(n: nat, k: nat)
    ensures ParseDecimal(DecimalText(n, k)) == Some(Ratio(n, Pow10(k)))
  {
    var p := Padded(n, k);
    if k == 0 {
      assert DecimalText(n, k) == p;
      ParseDigits(p);
    } else {
      assert DecimalText(n, k) == p[..|p| - k] + "." + p[|p| - k..];
      ParseSplitDigits(p, n, k);
    }
  }

  lemma ParseSplitDigits(p: string, n: nat, k: nat)
    requires AllDigits(p) && DigitsValue(p) == n && |p| >= k + 1 && k > 0
    ensures ParseDecimal(p[..|p| - k] + "." + p[|p| - k..]) == Some(Ratio(n, Pow10(k)))
  {
    SplitDecimalValue(p, n, k);
    ParseDigitsDot(p[..|p| - k], p[|p| - k..]);
  }

  lemma SplitDecimalValue(p: string, n: nat, k: nat)
    requires AllDigits(p) && DigitsValue(p) == n && |p| >= k
    ensures AllDigits(p[..|p| - k]) && AllDigits(p[|p| - k..])
    ensures DecimalValue(p[..|p| - k], p[|p| - k..]) == Ratio(n, Pow10(k))
  {
    SplitValue(p, k);
    SlicesDigits(p, k);
    DecimalValueOf(p[..|p| - k], p[|p| - k..], n);
  }

  lemma DecimalValueOf(a: string, b: string, n: nat)
    requires AllDigits(a) && AllDigits(b) && DigitsValue(a) * Pow10(|b|) + DigitsValue(b) == n
    ensures DecimalValue(a, b) == Ratio(n, Pow10(|b|))
  {
  }

  lemma SplitValue(p: string, k: nat)
    requires AllDigits(p) && |p| >= k
    ensures AllDigits(p[..|p| - k]) && AllDigits(p[|p| - k..])
    ensures DigitsValue(p) == DigitsValue(p[..|p| - k]) * Pow10(k) + DigitsValue(p[|p| - k..])
  {
    var a, b := p[..|p| - k], p[|p| - k..];
    SlicesDigits(p, k);
    assert p == a + b;
    DigitsValueAppend(a, b);
  }

  lemma SlicesDigits(p: string, k: nat)
    requires AllDigits(p) && |p| >= k
    ensures AllDigits(p[..|p| - k]) && AllDigits(p[|p| - k..]) && |p[|p| - k..]| == k
  {
    var a, b := p[..|p| - k], p[|p| - k..];
    assert forall i :: 0 <= i < |a| ==> a[i] == p[i];
    assert forall i :: 0 <= i < |b| ==> b[i] == p[|p| - k + i];
  }

  /** The digits `DecimalText` places around its dot. */
  function Padded(n: nat, k: nat): (p: string)
    ensures AllDigits(p) && DigitsValue(p) == n && |p| >= k + 1
  {
    var d := NatToString(n);
    DigitsValueOfNat(n);
    if |d| < k + 1 then
      DigitsValueZeros(k + 1 - |d|);
      DigitsValueAppend(Zeros(k + 1 - |d|), d);
      Zeros(k + 1 - |d|) + d
    else d
  }

  lemma ParseDigits(a: string)
    requires AllDigits(a) && a != []
    ensures ParseDecimal(a) == Some(Ratio(DigitsValue(a), 1))
  {
    assert IsDigit(a[0]);
    assert '.' !in a;
    assert Partition(a, '.') == (a, []);
    assert DecimalValue(a, []) == Ratio(DigitsValue(a) * 1 + 0, 1);
  }

  lemma ParseDigitsDot(a: string, b: string)
    requires AllDigits(a) && AllDigits(b) && |b| > 0
    ensures ParseDecimal(a + "." + b) == Some(DecimalValue(a, b))
  {
    var t := a + "." + b;
    assert '.' !in a && '.' !in b;
    assert AllDecimal(t) by {
      forall i | 0 <= i < |t| ensures IsDecimalChar(t[i]) {
        if i < |a| { assert t[i] == a[i]; } else if i > |a| { assert t[i] == b[i - |a| - 1]; }
      }
    }
    assert Partition(t, '.') == (a, b) by {
      FindPrefix(a, ['.'] + b, '.');
      assert t == a + (['.'] + b);
      assert t[..|a|] == a && t[|a| + 1..] == b;
    }
  }

  function Sum(xs: seq<real>): real
  {
    if xs == [] then 0.0 else Sum(xs[..|xs| - 1]) + xs[|xs| - 1]
  }

  /** The arithmetic mean `sum(xs) / len(xs)`. */
  function Mean(xs: seq<real>): real
    requires |xs| > 0
  {
    Sum(xs) / |xs| as real
  }

  lemma {:induction false} SumBounds(xs: seq<real>, lo: real, hi: real)
    requires forall i :: 0 <= i < |xs| ==> lo <= xs[i] <= hi
    ensures |xs| as real * lo <= Sum(xs) <= |xs| as real * hi
  {
    if xs != [] {
      SumBounds(xs[..|xs| - 1], lo, hi);
    }
  }

  /** The mean of values within [lo, hi] lies within [lo, hi]. */
  lemma MeanBounds(xs: seq<real>, lo: real, hi: real)
    requires |xs| > 0
    requires forall i :: 0 <= i < |xs| ==> lo <= xs[i] <= hi
    ensures lo <= Mean(xs) <= hi
  {
    SumBounds(xs, lo, hi);
    var n := |xs| as real;
    assert Sum(xs) / n >= lo by {
      assert Sum(xs) >= n * lo;
    }
    assert Sum(xs) / n <= hi by {
      assert Sum(xs) <= n * hi;
    }
  }
}
