/** Some encoding into lines of printable text that loses nothing, to show that there are any. */
module Encoding {
  import opened Strings

  /** No code is a prefix of another's, so codes can be read off the front of a row. */
  ghost predicate PrefixFree<T(!new)>(f: T -> seq<nat>) {
    forall x: T, y: T, r: seq<nat>, s: seq<nat> :: f(x) + r == f(y) + s ==> x == y && r == s
  }

  function Concat<T>(xs: seq<T>, f: T -> seq<nat>): seq<nat> { if xs == [] then [] else f(xs[0]) + Concat(xs[1..], f) }

  /** A list is its length and the codes of its elements. */
  function ListCode<T>(f: T -> seq<nat>): seq<T> -> seq<nat> { (xs: seq<T>) => [|xs|] + Concat(xs, f) }

  lemma {:induction false} ConcatReads<T(!new)>(xs: seq<T>, ys: seq<T>, f: T -> seq<nat>, r: seq<nat>, s: seq<nat>)
    requires PrefixFree(f) && |xs| == |ys| && Concat(xs, f) + r == Concat(ys, f) + s
    ensures xs == ys && r == s
    decreases |xs|
  {
    if xs != [] {
      assert f(xs[0]) + (Concat(xs[1..], f) + r) == Concat(xs, f) + r;
      assert f(ys[0]) + (Concat(ys[1..], f) + s) == Concat(ys, f) + s;
      ConcatReads(xs[1..], ys[1..], f, r, s);
      assert xs == [xs[0]] + xs[1..] && ys == [ys[0]] + ys[1..];
    } else {
      assert Concat(xs, f) + r == r && Concat(ys, f) + s == s;
    }
  }

  lemma ListsArePrefixFree<T(!new)>(f: T -> seq<nat>)
    requires PrefixFree(f)
    ensures PrefixFree(ListCode(f))
  {
    var g := ListCode(f);
    forall xs: seq<T>, ys: seq<T>, r: seq<nat>, s: seq<nat> | g(xs) + r == g(ys) + s ensures xs == ys && r == s {
      var a, b := g(xs) + r, g(ys) + s;
      assert a[0] == |xs| && b[0] == |ys|;
      assert a[1..] == Concat(xs, f) + r && b[1..] == Concat(ys, f) + s;
      ConcatReads(xs, ys, f, r, s);
    }
  }

  function CharCode(): char -> seq<nat> { (c: char) => [c as nat] }

  function StringCode(): string -> seq<nat> { ListCode(CharCode()) }

  function StringsCode(): seq<string> -> seq<nat> { ListCode(StringCode()) }

  lemma StringsArePrefixFree()
    ensures PrefixFree(CharCode()) && PrefixFree(StringCode()) && PrefixFree(StringsCode())
  {
    forall x: char, y: char, r: seq<nat>, s: seq<nat> | CharCode()(x) + r == CharCode()(y) + s ensures x == y && r == s {
      var a, b := CharCode()(x) + r, CharCode()(y) + s;
      assert a[0] == x as nat && b[0] == y as nat && a[1..] == r && b[1..] == s;
    }
    ListsArePrefixFree(CharCode());
    ListsArePrefixFree(StringCode());
  }

  // ------------------------------------------------------------------ numbers as text

  function Numerals(ns: seq<nat>): string { if ns == [] then "" else Str(ns[0]) + "," + Numerals(ns[1..]) }

  lemma {:induction false} StrIsDigits(n: nat, i: nat)
    requires i < |Str(n)|
    ensures '0' <= Str(n)[i] <= '9'
    decreases n
  {
    if n >= 10 && i < |Str(n)| - 1 { StrIsDigits(n / 10, i); }
  }

  lemma FirstNumeralIs(m: nat, n: nat, r: string, s: string)
    requires Str(m) + "," + r == Str(n) + "," + s
    ensures m == n && r == s
  {
    var a, b := Str(m) + "," + r, Str(n) + "," + s;
    assert a[|Str(m)|] == ',' && b[|Str(n)|] == ',';
    forall i | 0 <= i < |Str(m)| ensures a[i] != ',' { StrIsDigits(m, i); }
    forall i | 0 <= i < |Str(n)| ensures b[i] != ',' { StrIsDigits(n, i); }
    assert Str(m) == a[..|Str(m)|] == b[..|Str(n)|] == Str(n);
    StrIsInjective(m, n);
    assert r == a[|Str(m)| + 1..] && s == b[|Str(n)| + 1..];
  }

  lemma {:induction false} NumeralsAreInjective(ms: seq<nat>, ns: seq<nat>)
    requires Numerals(ms) == Numerals(ns)
    ensures ms == ns
    decreases |ms|
  {
    if ms != [] && ns != [] {
      FirstNumeralIs(ms[0], ns[0], Numerals(ms[1..]), Numerals(ns[1..]));
      NumeralsAreInjective(ms[1..], ns[1..]);
      assert ms == [ms[0]] + ms[1..] && ns == [ns[0]] + ns[1..];
    }
  }

  /** Digits and commas in braces: one line, whatever the numbers. */
  function Line(ns: seq<nat>): string { "{" + Numerals(ns) + "}" }

  predicate Printable(s: string) { forall i :: 0 <= i < |s| ==> ' ' <= s[i] <= '~' }

  lemma {:induction false} NumeralsArePrintable(ns: seq<nat>)
    ensures Printable(Numerals(ns))
  {
    if ns != [] {
      NumeralsArePrintable(ns[1..]);
      forall i | 0 <= i < |Str(ns[0])| ensures ' ' <= Str(ns[0])[i] <= '~' { StrIsDigits(ns[0], i); }
    }
  }

  lemma LineIsALine(ns: seq<nat>)
    ensures var s := Line(ns); s != "" && s[0] == '{' && s[|s| - 1] == '}' && Printable(s)
  {
    NumeralsArePrintable(ns);
  }

  lemma LinesAreInjective(ms: seq<nat>, ns: seq<nat>)
    requires Line(ms) == Line(ns)
    ensures ms == ns
  {
    assert Numerals(ms) == Line(ms)[1..|Line(ms)| - 1] == Line(ns)[1..|Line(ns)| - 1] == Numerals(ns);
    NumeralsAreInjective(ms, ns);
  }

  /** `str(i)`. */
  function IntText(i: int): string { if i < 0 then "-" + Str(-i) else Str(i) }

  lemma IntTextIsInjective(i: int, j: int)
    requires IntText(i) == IntText(j)
    ensures i == j
  {
    if i < 0 && j < 0 {
      assert Str(-i) == IntText(i)[1..] == IntText(j)[1..] == Str(-j);
      StrIsInjective(-i, -j);
    } else if i < 0 {
      StrIsDigits(j, 0);
      assert false;
    } else if j < 0 {
      StrIsDigits(i, 0);
      assert false;
    } else {
      StrIsInjective(i, j);
    }
  }
}
