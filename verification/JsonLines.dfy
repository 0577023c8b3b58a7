/** One line per message: what `splitlines` makes of a file that was only ever appended to. */
module JsonLines {
  /** The characters `str.splitlines` breaks at. */
  const BREAKS: set<char> := {'\n', '\r', '\U{000B}', '\U{000C}', '\U{001C}', '\U{001D}', '\U{001E}', '\U{0085}', '\U{2028}', '\U{2029}'}

  predicate NoBreak(s: string) { forall i :: 0 <= i < |s| ==> s[i] !in BREAKS }

  function FirstBreak(s: string): (n: nat)
    ensures n <= |s| && NoBreak(s[..n]) && (n < |s| ==> s[n] in BREAKS)
  {
    if s == "" || s[0] in BREAKS then 0 else
    var n := FirstBreak(s[1..]) + 1;
    assert s[..n] == [s[0]] + s[1..][..n - 1];
    n
  }

  /** `str.splitlines()`: a carriage return and the newline behind it are one break. */
  function SplitLines(s: string): seq<string>
    decreases |s|
  {
    if s == "" then [] else
    var n := FirstBreak(s);
    if n == |s| then [s]
    else if s[n] == '\r' && n + 1 < |s| && s[n + 1] == '\n' then [s[..n]] + SplitLines(s[n + 2..])
    else [s[..n]] + SplitLines(s[n + 1..])
  }

  function Framed(lines: seq<string>): string {
    if lines == [] then "" else lines[0] + "\n" + Framed(lines[1..])
  }

  lemma {:induction false} FramedConcat(a: seq<string>, b: seq<string>)
    ensures Framed(a + b) == Framed(a) + Framed(b)
  {
    if a == [] {
      assert a + b == b;
    } else {
      assert (a + b)[1..] == a[1..] + b;
      FramedConcat(a[1..], b);
      assert a[0] + "\n" + (Framed(a[1..]) + Framed(b)) == a[0] + "\n" + Framed(a[1..]) + Framed(b);
    }
  }

  lemma {:induction false} BreakIs(s: string, n: nat)
    requires n < |s| && NoBreak(s[..n]) && s[n] in BREAKS
    ensures FirstBreak(s) == n
  {
    if n > 0 {
      assert s[..n][0] == s[0] && s[1..][..n - 1] == s[..n][1..];
      BreakIs(s[1..], n - 1);
    }
  }

  /** A break ends the line before it, and a carriage return takes the newline behind it along; text without one is one line. */
  lemma SplitsAt(line: string, mark: char, rest: string)
    requires NoBreak(line) && mark in BREAKS
    ensures mark == '\r' && rest != "" && rest[0] == '\n' ==> SplitLines(line + [mark] + rest) == [line] + SplitLines(rest[1..])
    ensures !(mark == '\r' && rest != "" && rest[0] == '\n') ==> SplitLines(line + [mark] + rest) == [line] + SplitLines(rest)
    ensures SplitLines(line) == if line == "" then [] else [line]
  {
    var s, n := line + [mark] + rest, |line|;
    assert s[..n] == line && s[n] == mark && s[n + 1..] == rest;
    if rest != "" { assert s[n + 1] == rest[0] && s[n + 2..] == rest[1..]; }
    BreakIs(s, n);
    if line != "" { assert FirstBreak(line) == |line|; }
  }

  /** Lines without a break come back as they were written. */
  lemma {:induction false} SplitFramed(lines: seq<string>)
    requires forall i :: 0 <= i < |lines| ==> NoBreak(lines[i])
    ensures SplitLines(Framed(lines)) == lines
  {
    if lines != [] {
      var s, n := Framed(lines), |lines[0]|;
      assert s[..n] == lines[0] && s[n] == '\n' && s[n + 1..] == Framed(lines[1..]);
      BreakIs(s, n);
      SplitFramed(lines[1..]);
    }
  }
}
