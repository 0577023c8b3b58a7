/** Text helpers with Python's meaning. */
module Strings {
  /** What `str.strip` removes. */
  const WHITESPACE: set<char> := {' ', '\t', '\n', '\r', '\U{000B}', '\U{000C}', '\U{001C}', '\U{001D}', '\U{001E}', '\U{001F}', '\U{0085}', '\U{00A0}',
    '\U{1680}', '\U{2000}', '\U{2001}', '\U{2002}', '\U{2003}', '\U{2004}', '\U{2005}', '\U{2006}', '\U{2007}', '\U{2008}', '\U{2009}', '\U{200A}',
    '\U{2028}', '\U{2029}', '\U{202F}', '\U{205F}', '\U{3000}'}

  function Strip(s: string): (t: string)
    ensures s != "" && s[0] !in WHITESPACE && s[|s| - 1] !in WHITESPACE ==> t == s
    decreases |s|
  {
    if s == "" then s
    else if s[0] in WHITESPACE then Strip(s[1..])
    else if s[|s| - 1] in WHITESPACE then Strip(s[..|s| - 1])
    else s
  }

  /** Outside of `a` and `b` there is nothing but white space. */
  predicate Between(s: string, a: int, b: int) {
    0 <= a <= b <= |s| && (forall i :: 0 <= i < a ==> s[i] in WHITESPACE) && forall i :: b <= i < |s| ==> s[i] in WHITESPACE
  }

  /** What `strip` leaves is the text between two stretches of white space, and neither begins nor ends with any. */
  lemma {:induction false} StripIs(s: string)
    ensures exists a, b :: Between(s, a, b) && Strip(s) == s[a..b]
    ensures Strip(s) != "" ==> Strip(s)[0] !in WHITESPACE && Strip(s)[|Strip(s)| - 1] !in WHITESPACE
    decreases |s|
  {
    if s == "" {
      assert Between(s, 0, 0);
    } else if s[0] in WHITESPACE {
      StripIs(s[1..]);
      var a, b :| Between(s[1..], a, b) && Strip(s[1..]) == s[1..][a..b];
      assert Between(s, a + 1, b + 1) && s[1..][a..b] == s[a + 1..b + 1];
    } else if s[|s| - 1] in WHITESPACE {
      var init := s[..|s| - 1];
      StripIs(init);
      var a, b :| Between(init, a, b) && Strip(init) == init[a..b];
      assert Between(s, a, b) && init[a..b] == s[a..b];
    } else {
      assert Between(s, 0, |s|) && s[0..|s|] == s;
    }
  }

  lemma StripsToNothingIff(s: string)
    ensures Strip(s) == "" <==> forall i :: 0 <= i < |s| ==> s[i] in WHITESPACE
  {
    StripIs(s);
    var a, b :| Between(s, a, b) && Strip(s) == s[a..b];
    if Strip(s) != "" { assert Strip(s)[0] == s[a]; }
  }

  const DIGITS := "0123456789"

  /** `str(n)`. */
  function Str(n: nat): (s: string)
    ensures |s| == 1 <==> n < 10
    ensures s != ""
    decreases n
  {
    if n < 10 then [DIGITS[n]] else Str(n / 10) + [DIGITS[n % 10]]
  }

  lemma DigitsDiffer(i: nat, j: nat)
    requires i < 10 && j < 10
    ensures DIGITS[i] == DIGITS[j] <==> i == j
  {
  }

  /** Different numbers are written differently. */
  lemma {:induction false} StrIsInjective(m: nat, n: nat)
    requires Str(m) == Str(n)
    ensures m == n
    decreases m
  {
    var s, t := Str(m), Str(n);
    assert s[|s| - 1] == DIGITS[m % 10] && t[|t| - 1] == DIGITS[n % 10];
    DigitsDiffer(m % 10, n % 10);
    if m >= 10 && n >= 10 {
      assert s[..|s| - 1] == Str(m / 10) && t[..|t| - 1] == Str(n / 10);
      StrIsInjective(m / 10, n / 10);
    }
  }
}
