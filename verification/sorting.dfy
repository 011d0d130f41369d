/** Python's `sorted` over a collection of strings: code-point
    lexicographic order, which is what `sorted(dict)` yields for the
    registries' keys.
 */
module Sorting {

  /** `a <= b` for Python strings. */
  predicate StrLe(a: string, b: string)
  {
    if a == [] then true
    else if b == [] then false
    else if a[0] < b[0] then true
    else if a[0] > b[0] then false
    else StrLe(a[1..], b[1..])
  }

  lemma {:induction false} StrLeRefl(a: string)
    ensures StrLe(a, a)
  {
    if a != [] { StrLeRefl(a[1..]); }
  }

  lemma {:induction false} StrLeAntisym(a: string, b: string)
    requires StrLe(a, b) && StrLe(b, a)
    ensures a == b
  {
    if a != [] && b != [] && a[0] == b[0] {
      StrLeAntisym(a[1..], b[1..]);
    }
  }

  lemma {:induction false} StrLeTotal(a: string, b: string)
    ensures StrLe(a, b) || StrLe(b, a)
  {
    if a != [] && b != [] && a[0] == b[0] {
      StrLeTotal(a[1..], b[1..]);
    }
  }

  lemma {:induction false} StrLeTrans(a: string, b: string, c: string)
    requires StrLe(a, b) && StrLe(b, c)
    ensures StrLe(a, c)
  {
    if a != [] && b != [] && c != [] && a[0] == b[0] && b[0] == c[0] {
      StrLeTrans(a[1..], b[1..], c[1..]);
    }
  }

  predicate IsLeast(m: string, s: set<string>)
  {
    m in s && forall y :: y in s ==> StrLe(m, y)
  }

  lemma LeastUnique(s: set<string>)
    ensures forall m, m' :: IsLeast(m, s) && IsLeast(m', s) ==> m == m'
  {
    forall m, m' | IsLeast(m, s) && IsLeast(m', s) ensures m == m' {
      StrLeAntisym(m, m');
    }
  }

  lemma {:induction false} LeastExists(s: set<string>)
    requires s != {}
    ensures exists m :: IsLeast(m, s)
    decreases |s|
  {
    var x :| x in s;
    if s == {x} {
      StrLeRefl(x);
      assert IsLeast(x, s);
    } else {
      var rest := s - {x};
      LeastExists(rest);
      var m :| IsLeast(m, rest);
      StrLeTotal(x, m);
      if StrLe(x, m) {
        forall y | y in s ensures StrLe(x, y) {
          if y == x { StrLeRefl(x); } else { StrLeTrans(x, m, y); }
        }
        assert IsLeast(x, s);
      } else {
        assert IsLeast(m, s);
      }
    }
  }

  /** The smallest name of a non-empty set. */
  function Least(s: set<string>): (m: string)
    requires s != {}
    ensures IsLeast(m, s)
  {
    LeastExists(s);
    LeastUnique(s);
    var m :| m in s && IsLeast(m, s);
    m
  }

  predicate StrictlySorted(r: seq<string>)
  {
    forall i, j :: 0 <= i < j < |r| ==> StrLe(r[i], r[j]) && r[i] != r[j]
  }

  /** `sorted(s)`: every name exactly once, in increasing order. */
  function SortedSet(s: set<string>): (r: seq<string>)
    ensures |r| == |s|
    ensures forall i :: 0 <= i < |r| ==> r[i] in s
    ensures forall x :: x in s ==> x in r
    ensures StrictlySorted(r)
    decreases |s|
  {
    if s == {} then []
    else
      var m := Least(s);
      var rest := SortedSet(s - {m});
      assert forall j :: 0 <= j < |rest| ==> StrLe(m, rest[j]) && rest[j] != m;
      SortedCons(m, rest);
      var r := [m] + rest;
      assert forall x :: x in s ==> x == m || x in rest;
      assert |s - {m}| == |s| - 1;
      r
  }

  lemma SortedCons(m: string, rest: seq<string>)
    requires StrictlySorted(rest)
    requires forall j :: 0 <= j < |rest| ==> StrLe(m, rest[j]) && rest[j] != m
    ensures StrictlySorted([m] + rest)
  {
    var r := [m] + rest;
    forall i, j | 0 <= i < j < |r| ensures StrLe(r[i], r[j]) && r[i] != r[j] {
      if i > 0 {
        assert r[i] == rest[i - 1] && r[j] == rest[j - 1];
      }
    }
  }

  /** Three distinct names in increasing order are the only strictly sorted
      listing of themselves. */
  lemma SortedThree(names: seq<string>, a: string, b: string, c: string)
    requires |names| == 3 && StrictlySorted(names)
    requires a in names && b in names && c in names
    requires StrLe(a, b) && StrLe(b, c) && a != b && b != c && a != c
    ensures names == [a, b, c]
  {
    StrLeNotBoth(a, b);
    StrLeNotBoth(b, c);
    StrLeTrans(a, b, c);
    StrLeNotBoth(a, c);
  }

  lemma StrLeNotBoth(a: string, b: string)
    requires StrLe(a, b) && a != b
    ensures !StrLe(b, a)
  {
    if StrLe(b, a) {
      StrLeAntisym(a, b);
    }
  }
}
