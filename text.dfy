/** Option and Result, for lookups that may miss and conversions that may fail. */
module Wrappers {

  datatype Option<T> = None | Some(value: T)

  datatype Result<T, E> = Success(value: T) | Failure(error: E)
}

/**
 * The Python string operations the converters rely on, over strings seen as
 * sequences of code points: `str.isspace`, `str.strip`, `str.startswith`,
 * the `in` operator on strings, `str.replace`, `str(int)` and `int(str)`.
 */
module Text {

  import opened Wrappers

  /** Names of pins, buses, devices and terminals, as they appear in the JSON files. */
  type Name = string

  /** Python's `str.isspace()` for a single code point. */
  predicate IsSpace(c: char) {
    var k := c as int;
    k == 0x20 || 0x09 <= k <= 0x0D || 0x1C <= k <= 0x1F || k == 0x85 || k == 0xA0 ||
    k == 0x1680 || 0x2000 <= k <= 0x200A || k == 0x2028 || k == 0x2029 || k == 0x202F ||
    k == 0x205F || k == 0x3000
  }

  predicate IsDigit(c: char) {
    '0' <= c <= '9'
  }

  predicate AllDigits(s: string) {
    forall i :: 0 <= i < |s| ==> IsDigit(s[i])
  }

  /** The characters `<` and `>`, which `str.strip("<>")` removes. */
  predicate IsAngle(c: char) {
    c == '<' || c == '>'
  }

  /** The number of leading characters of `s` that satisfy `p`. */
  function LeadingRun(s: string, p: char -> bool): (k: nat)
    ensures k <= |s|
    ensures forall i :: 0 <= i < k ==> p(s[i])
    ensures k == |s| || !p(s[k])
  {
    if s != [] && p(s[0]) then 1 + LeadingRun(s[1..], p) else 0
  }

  /** The number of trailing characters of `s` that satisfy `p`. */
  function TrailingRun(s: string, p: char -> bool): (k: nat)
    ensures k <= |s|
    ensures forall i :: |s| - k <= i < |s| ==> p(s[i])
    ensures k == |s| || !p(s[|s| - 1 - k])
  {
    if s != [] && p(s[|s| - 1]) then 1 + TrailingRun(s[..|s| - 1], p) else 0
  }

  /**
   * Python's `s.strip(chars)`: drop every leading and every trailing
   * character that `p` accepts. The result is a slice of `s` that neither
   * starts nor ends with such a character.
   */
  function StripBy(s: string, p: char -> bool): (r: string)
    ensures r == [] || (!p(r[0]) && !p(r[|r| - 1]))
    ensures r == [] ==> forall i :: 0 <= i < |s| ==> p(s[i])
    ensures s != [] && !p(s[0]) ==> r != [] && r[0] == s[0]
  {
    var lead := LeadingRun(s, p);
    var t := s[lead..];
    var trail := TrailingRun(t, p);
    assert trail < |t| ==> !p(t[|t| - 1 - trail]);
    t[..|t| - trail]
  }

  /** Stripping a string held between two stripped characters gives the string. */
  lemma StripByEnclosed(t: string, c: char, d: char, p: char -> bool)
    requires p(c) && p(d)
    requires t != [] && !p(t[0]) && !p(t[|t| - 1])
    ensures StripBy([c] + t + [d], p) == t
  {
    var s := [c] + t + [d];
    assert s[1..] == t + [d];
    assert LeadingRun(s[1..], p) == 0;
    assert LeadingRun(s, p) == 1;
    assert (t + [d])[..|t|] == t;
    assert TrailingRun(t, p) == 0;
    assert TrailingRun(t + [d], p) == 1;
  }

  /** Python's `s.strip()`. */
  function Strip(s: string): string {
    StripBy(s, IsSpace)
  }

  /** A string that neither starts nor ends with a character `p` accepts is left alone by StripBy. */
  lemma StripByUnchanged(s: string, p: char -> bool)
    requires s != [] && !p(s[0]) && !p(s[|s| - 1])
    ensures StripBy(s, p) == s
  {
    assert LeadingRun(s, p) == 0;
    assert TrailingRun(s, p) == 0;
  }

  /** Python's `s.startswith(prefix)`. */
  predicate StartsWith(s: string, prefix: string) {
    |prefix| <= |s| && s[..|prefix|] == prefix
  }

  /** `sub` occurs in `s` starting at index `i`. */
  predicate OccursAt(s: string, sub: string, i: int) {
    0 <= i && i + |sub| <= |s| && s[i..i + |sub|] == sub
  }

  /** Python's `sub in s`. */
  predicate Contains(s: string, sub: string) {
    exists i :: 0 <= i <= |s| - |sub| && OccursAt(s, sub, i)
  }

  /** No character of `s` is `c`. */
  predicate Lacks(s: string, c: char) {
    forall i :: 0 <= i < |s| ==> s[i] != c
  }

  /** A concatenation lacks a character exactly when both parts lack it. */
  lemma LacksConcat(a: string, b: string, c: char)
    ensures Lacks(a + b, c) <==> Lacks(a, c) && Lacks(b, c)
  {
    if Lacks(a + b, c) {
      forall i | 0 <= i < |a|
        ensures a[i] != c
      {
        assert (a + b)[i] == a[i];
      }
      forall i | 0 <= i < |b|
        ensures b[i] != c
      {
        assert (a + b)[|a| + i] == b[i];
      }
    }
  }

  /** A string of digits lacks every character that is not a digit. */
  lemma DigitsLack(s: string, c: char)
    requires AllDigits(s) && !IsDigit(c)
    ensures Lacks(s, c)
  {
  }

  /** A string that lacks one of the characters of `sub` does not contain `sub`. */
  lemma NotContainsWithoutChar(s: string, sub: string, j: int)
    requires 0 <= j < |sub|
    requires Lacks(s, sub[j])
    ensures !Contains(s, sub)
  {
    forall i | 0 <= i <= |s| - |sub|
      ensures !OccursAt(s, sub, i)
    {
      assert s[i..i + |sub|][j] == s[i + j];
    }
  }

  /** An occurrence of `sub` at index `i` of `x + y` lying wholly within `x` is one of `x`. */
  lemma OccursInLeft(x: string, y: string, sub: string, i: int)
    requires OccursAt(x + y, sub, i) && i + |sub| <= |x|
    ensures OccursAt(x, sub, i)
  {
    assert (x + y)[i..i + |sub|] == x[i..i + |sub|];
  }

  /** An occurrence of `sub` at index `i` of `x + y` lying wholly within `y` is one of `y`. */
  lemma OccursInRight(x: string, y: string, sub: string, i: int)
    requires OccursAt(x + y, sub, i) && |x| <= i
    ensures OccursAt(y, sub, i - |x|)
  {
    assert (x + y)[i..i + |sub|] == y[i - |x|..i - |x| + |sub|];
  }

  /**
   * An occurrence of `sub` in `x + y` is one of `x`, one of `y` that starts
   * after the first character of `y`, or covers that character.
   */
  lemma OccursSplit(x: string, y: string, sub: string, i: int)
    requires y != []
    ensures OccursAt(x + y, sub, i) ==>
      (i + |sub| <= |x| && OccursAt(x, sub, i)) || (|x| < i && OccursAt(y, sub, i - |x|)) || y[0] in sub
  {
    if OccursAt(x + y, sub, i) {
      if i + |sub| <= |x| {
        OccursInLeft(x, y, sub, i);
      } else if |x| <= i {
        OccursInRight(x, y, sub, i);
      } else {
        assert sub[|x| - i] == (x + y)[i..i + |sub|][|x| - i] == y[0];
      }
    }
  }

  /** `sub` occurs in `x + y` only within `x` or within `y` when nothing can straddle the two. */
  lemma ContainsConcat(x: string, y: string, sub: string)
    requires y != [] && y[0] !in sub
    requires !Contains(x, sub) && !Contains(y, sub)
    ensures !Contains(x + y, sub)
  {
    forall i | 0 <= i <= |x + y| - |sub|
      ensures !OccursAt(x + y, sub, i)
    {
      OccursSplit(x, y, sub, i);
    }
  }

  /**
   * Python's `s.replace(pat, rep)` for a non-empty `pat`: scanning left to
   * right, every non-overlapping occurrence of `pat` becomes `rep`.
   */
  function Replace(s: string, pat: string, rep: string): (r: string)
    requires pat != []
    ensures !Contains(s, pat) ==> r == s
    decreases |s|
  {
    if |s| < |pat| then s
    else if s[..|pat|] == pat then
      assert OccursAt(s, pat, 0);
      rep + Replace(s[|pat|..], pat, rep)
    else
      assert !Contains(s, pat) ==> !Contains(s[1..], pat) by {
        if Contains(s[1..], pat) {
          var i :| 0 <= i <= |s[1..]| - |pat| && OccursAt(s[1..], pat, i);
          assert s[1..][i..i + |pat|] == s[i + 1..i + 1 + |pat|];
          assert OccursAt(s, pat, i + 1);
        }
      }
      [s[0]] + Replace(s[1..], pat, rep)
  }

  /** A string that starts with `pat` and has no other occurrence gets only that one replaced. */
  lemma ReplaceAtStart(pat: string, rest: string, rep: string)
    requires pat != [] && !Contains(rest, pat)
    ensures Replace(pat + rest, pat, rep) == rep + rest
  {
    var s := pat + rest;
    assert s[..|pat|] == pat && s[|pat|..] == rest;
  }

  /** Replacing with a text that lacks `c` in a string that lacks `c` gives a string that lacks `c`. */
  lemma {:induction false} ReplaceLacks(s: string, pat: string, rep: string, c: char)
    requires pat != []
    requires Lacks(s, c) && Lacks(rep, c)
    ensures Lacks(Replace(s, pat, rep), c)
    decreases |s|
  {
    if |s| >= |pat| {
      if s[..|pat|] == pat {
        ReplaceLacks(s[|pat|..], pat, rep, c);
        LacksConcat(rep, Replace(s[|pat|..], pat, rep), c);
      } else {
        ReplaceLacks(s[1..], pat, rep, c);
        LacksConcat([s[0]], Replace(s[1..], pat, rep), c);
      }
    }
  }

  /** The decimal digit for `d`. */
  function DigitChar(d: nat): (c: char)
    requires d < 10
    ensures IsDigit(c)
  {
    ('0' as int + d) as char
  }

  /** The value of a string of decimal digits, most significant first. */
  function DigitsValue(s: string): nat
    requires AllDigits(s)
  {
    if s == [] then 0
    else 10 * DigitsValue(s[..|s| - 1]) + (s[|s| - 1] as int - '0' as int)
  }

  /** Python's `str(n)` for a non-negative integer: its shortest decimal numeral. */
  function NatToString(n: nat): (r: string)
    ensures r != [] && AllDigits(r)
    ensures DigitsValue(r) == n
    ensures r[0] == '0' ==> n == 0
  {
    if n < 10 then [DigitChar(n)]
    else
      var r := NatToString(n / 10) + [DigitChar(n % 10)];
      assert r[..|r| - 1] == NatToString(n / 10);
      r
  }

  /** Python's `str(i)` for any integer. */
  function IntToString(i: int): (r: string)
    ensures r != [] && (r[0] == '-' || IsDigit(r[0])) && IsDigit(r[|r| - 1])
  {
    if i < 0 then "-" + NatToString(-i) else NatToString(i)
  }

  /** A sign followed by digits, or digits alone, as Python's `int()` reads them. */
  function SignedValue(t: string): Option<int> {
    if t != [] && (t[0] == '-' || t[0] == '+') then
      var ds := t[1..];
      if ds != [] && AllDigits(ds) then
        Some(if t[0] == '-' then -(DigitsValue(ds) as int) else DigitsValue(ds))
      else None
    else if t != [] && AllDigits(t) then Some(DigitsValue(t))
    else None
  }

  /**
   * Python's `int(s)` for a string: surrounding whitespace is ignored, an
   * optional sign, then decimal digits; anything else raises ValueError,
   * modelled as None.
   */
  function ParseInt(s: string): Option<int> {
    SignedValue(Strip(s))
  }

  /** Reading back a numeral printed by `str` gives the printed integer. */
  lemma ParseIntToString(i: int)
    ensures ParseInt(IntToString(i)) == Some(i)
  {
    StripByUnchanged(IntToString(i), IsSpace);
    SignedValueOfString(i);
  }

  lemma SignedValueOfString(i: int)
    ensures SignedValue(IntToString(i)) == Some(i)
  {
    if i < 0 {
      var r := IntToString(i);
      assert r[0] == '-' && r[1..] == NatToString(-i);
    }
  }

  /** Printing integers is injective: distinct integers print differently. */
  lemma IntToStringInjective(i: int, j: int)
    requires IntToString(i) == IntToString(j)
    ensures i == j
  {
    ParseIntToString(i);
    ParseIntToString(j);
  }
}
