/**
 * Python's `sorted` on the two kinds of keys the converters sort: integers
 * (the bit keys of a device's sizing table) and strings (device names,
 * compared code point by code point as Python compares `str`).
 */
module Order {

  import opened Text

  /** Splits some element off a non-empty set: the step of an induction on its size. */
  lemma Split<T>(s: set<T>) returns (x: T, rest: set<T>)
    requires s != {}
    ensures x in s && x !in rest && s == rest + {x}
    ensures |rest| == |s| - 1
  {
    x :| x in s;
    rest := s - {x};
  }

  /** Picks some element of a non-empty set, in no particular order: one step of iterating a dict. */
  method Pick<T>(s: set<T>) returns (x: T)
    requires s != {}
    ensures x in s
  {
    x :| x in s;
  }

  predicate StrictlyIncreasing(s: seq<int>) {
    forall i, j :: 0 <= i < j < |s| ==> s[i] < s[j]
  }

  /** `m` is the least element of `s`. */
  predicate IsIntMin(m: int, s: set<int>) {
    m in s && forall y :: y in s ==> m <= y
  }

  /** Every non-empty finite set of integers has a least element. */
  lemma {:induction false} IntMinExists(s: set<int>)
    requires s != {}
    ensures exists m :: IsIntMin(m, s)
    decreases |s|
  {
    var x, rest := Split(s);
    if rest == {} {
      assert s == {x};
      assert IsIntMin(x, s);
    } else {
      IntMinExists(rest);
      var m :| IsIntMin(m, rest);
      var least := if x < m then x else m;
      forall y | y in s
        ensures least <= y
      {
        if y != x {
          assert y in rest;
        }
      }
      assert IsIntMin(least, s);
    }
  }

  /** `sorted(s)` for a set of integers: its elements in ascending order, each once. */
  function SortedInts(s: set<int>): (r: seq<int>)
    ensures |r| == |s|
    ensures forall x :: x in r <==> x in s
    ensures StrictlyIncreasing(r)
    decreases |s|
  {
    if s == {} then []
    else
      IntMinExists(s);
      var m :| IsIntMin(m, s);
      var rest := SortedInts(s - {m});
      var r := [m] + rest;
      assert StrictlyIncreasing(r) by {
        forall i, j | 0 <= i < j < |r|
          ensures r[i] < r[j]
        {
          assert r[j] == rest[j - 1] && rest[j - 1] in s - {m};
          if i > 0 {
            assert r[i] == rest[i - 1];
          }
        }
      }
      r
  }

  /** Python's `a < b` on strings: lexicographic by code point, a proper prefix first. */
  predicate NameLess(a: string, b: string)
    decreases |a|
  {
    if a == [] then b != []
    else if b == [] then false
    else if a[0] != b[0] then a[0] < b[0]
    else NameLess(a[1..], b[1..])
  }

  lemma {:induction false} NameLessIrreflexive(a: string)
    ensures !NameLess(a, a)
    decreases |a|
  {
    if a != [] {
      NameLessIrreflexive(a[1..]);
    }
  }

  lemma {:induction false} NameLessTransitive(a: string, b: string, c: string)
    requires NameLess(a, b) && NameLess(b, c)
    ensures NameLess(a, c)
    decreases |a|
  {
    if a != [] && b != [] && c != [] && a[0] == b[0] && b[0] == c[0] {
      NameLessTransitive(a[1..], b[1..], c[1..]);
    }
  }

  /** Two different strings are always ordered one way or the other. */
  lemma {:induction false} NameLessTotal(a: string, b: string)
    requires a != b
    ensures NameLess(a, b) || NameLess(b, a)
    decreases |a|
  {
    if a != [] && b != [] && a[0] == b[0] {
      assert a == [a[0]] + a[1..] && b == [b[0]] + b[1..];
      NameLessTotal(a[1..], b[1..]);
    }
  }

  /** `m` is the least element of `s` in Python's string order. */
  predicate IsNameMin(m: string, s: set<string>) {
    m in s && forall y :: y in s && y != m ==> NameLess(m, y)
  }

  /** Every non-empty finite set of strings has a least element. */
  lemma {:induction false} NameMinExists(s: set<string>)
    requires s != {}
    ensures exists m :: IsNameMin(m, s)
    decreases |s|
  {
    var x, rest := Split(s);
    if rest == {} {
      assert IsNameMin(x, s);
    } else {
      NameMinExists(rest);
      var m :| IsNameMin(m, rest);
      NameLessTotal(x, m);
      if NameLess(x, m) {
        forall y | y in s && y != x
          ensures NameLess(x, y)
        {
          if y != m {
            NameLessTransitive(x, m, y);
          }
        }
        assert IsNameMin(x, s);
      } else {
        assert IsNameMin(m, s);
      }
    }
  }

  /** The least element of a set of strings is unique. */
  lemma NameMinUnique(s: set<string>)
    ensures forall m1, m2 :: IsNameMin(m1, s) && IsNameMin(m2, s) ==> m1 == m2
  {
    forall m1, m2 | IsNameMin(m1, s) && IsNameMin(m2, s)
      ensures m1 == m2
    {
      if m1 != m2 {
        NameLessTransitive(m1, m2, m1);
        NameLessIrreflexive(m1);
      }
    }
  }

  /** `sorted(s)` for a set of strings: its elements in ascending order, each once. */
  function SortedNames(s: set<string>): (r: seq<string>)
    ensures |r| == |s|
    ensures forall x :: x in r <==> x in s
    ensures forall i, j :: 0 <= i < j < |r| ==> NameLess(r[i], r[j])
    decreases |s|
  {
    if s == {} then []
    else
      NameMinExists(s);
      NameMinUnique(s);
      var m :| IsNameMin(m, s);
      var rest := SortedNames(s - {m});
      assert forall i :: 0 <= i < |rest| ==> NameLess(m, rest[i]) by {
        forall i | 0 <= i < |rest| ensures NameLess(m, rest[i]) {
          assert rest[i] in s - {m};
        }
      }
      [m] + rest
  }
}
