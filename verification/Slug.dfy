/** Inbox file names: percent-encoding of an address, given as its UTF-8 bytes. */
module Slug {
  newtype Byte = b: int | 0 <= b < 256

  type Address = seq<Byte>

  const COLON: Byte := 58
  const PLUS: Byte := 43
  const PERCENT := '%'
  const HEX := "0123456789ABCDEF"

  /** `address.replace(":", "+")`. */
  function Normal(a: Address): Address {
    if a == [] then [] else [if a[0] == COLON then PLUS else a[0]] + Normal(a[1..])
  }

  /** What `quote(..., safe="@+")` leaves as it is. */
  predicate Unquoted(b: Byte) {
    || 65 <= b <= 90 || 97 <= b <= 122 || 48 <= b <= 57
    || b in {45, 46, 95, 126} || b in {64, 43}
  }

  function QuoteByte(b: Byte): string {
    if Unquoted(b) then [b as char] else [PERCENT, HEX[b as int / 16], HEX[b as int % 16]]
  }

  function Quote(a: Address): string { if a == [] then "" else QuoteByte(a[0]) + Quote(a[1..]) }

  function Slugify(a: Address): string { Quote(Normal(a)) }

  lemma HexDiffers(i: nat, j: nat)
    requires i < 16 && j < 16
    ensures HEX[i] == HEX[j] <==> i == j
  {
  }

  /** The first byte can be read off the front of a quoted address. */
  lemma FirstByteIs(a: Byte, b: Byte, s: string, t: string)
    requires QuoteByte(a) + s == QuoteByte(b) + t
    ensures a == b && s == t
  {
    var x, y := QuoteByte(a) + s, QuoteByte(b) + t;
    assert x[0] == QuoteByte(a)[0] && y[0] == QuoteByte(b)[0];
    if !Unquoted(a) && !Unquoted(b) {
      assert x[1] == HEX[a as int / 16] && x[2] == HEX[a as int % 16];
      assert y[1] == HEX[b as int / 16] && y[2] == HEX[b as int % 16];
      HexDiffers(a as int / 16, b as int / 16);
      HexDiffers(a as int % 16, b as int % 16);
    }
    assert |QuoteByte(a)| == |QuoteByte(b)|;
    assert s == x[|QuoteByte(a)|..] && t == y[|QuoteByte(b)|..];
  }

  lemma {:induction false} QuoteIsInjective(a: Address, b: Address)
    requires Quote(a) == Quote(b)
    ensures a == b
    decreases |a|
  {
    if a != [] && b != [] {
      FirstByteIs(a[0], b[0], Quote(a[1..]), Quote(b[1..]));
      QuoteIsInjective(a[1..], b[1..]);
      assert a == [a[0]] + a[1..] && b == [b[0]] + b[1..];
    }
  }

  lemma {:induction false} NormalIs(a: Address)
    ensures |Normal(a)| == |a| && forall i :: 0 <= i < |a| ==> Normal(a)[i] == if a[i] == COLON then PLUS else a[i]
  {
    if a != [] {
      NormalIs(a[1..]);
      forall i | 0 < i < |a| ensures Normal(a)[i] == if a[i] == COLON then PLUS else a[i] { assert Normal(a)[i] == Normal(a[1..])[i - 1]; }
    }
  }

  /** The same byte, or a colon on one side and a plus on the other. */
  predicate Alike(x: Byte, y: Byte) { x == y || (x in {COLON, PLUS} && y in {COLON, PLUS}) }

  predicate OneInbox(a: Address, b: Address) { |a| == |b| && forall i :: 0 <= i < |a| ==> Alike(a[i], b[i]) }

  /** Two addresses share an inbox exactly when they differ at most in colons for pluses. */
  lemma SameInboxIff(a: Address, b: Address)
    ensures Slugify(a) == Slugify(b) <==> OneInbox(a, b)
  {
    NormalIs(a);
    NormalIs(b);
    if Slugify(a) == Slugify(b) { QuoteIsInjective(Normal(a), Normal(b)); }
    if OneInbox(a, b) { assert Normal(a) == Normal(b); }
  }

  lemma {:induction false} QuoteOfPlain(a: Address)
    requires forall i :: 0 <= i < |a| ==> Unquoted(a[i])
    ensures |Quote(a)| == |a| && forall i :: 0 <= i < |a| ==> Quote(a)[i] == a[i] as char
  {
    if a != [] {
      QuoteOfPlain(a[1..]);
      forall i | 0 < i < |a| ensures Quote(a)[i] == a[i] as char { assert Quote(a)[i] == Quote(a[1..])[i - 1]; }
    }
  }

  /** An address of letters, digits, `-._~@+` and colons is its own file name, but for a plus in the place of each colon. */
  lemma PlainAddressIsItsSlug(a: Address)
    requires forall i :: 0 <= i < |a| ==> a[i] == COLON || (SafeChar(a[i] as char) && a[i] as char != PERCENT)
    ensures |Slugify(a)| == |a| && forall i :: 0 <= i < |a| ==> Slugify(a)[i] == if a[i] == COLON then '+' else a[i] as char
  {
    NormalIs(a);
    forall i | 0 <= i < |a| ensures Unquoted(Normal(a)[i]) { SafeIsUnquoted(a[i]); }
    QuoteOfPlain(Normal(a));
  }

  lemma SafeIsUnquoted(b: Byte)
    ensures SafeChar(b as char) && b as char != PERCENT ==> Unquoted(b)
    ensures Unquoted(PLUS)
  {
  }

  /** A letter, a digit, or one of the marks that are safe in a file name. */
  predicate SafeChar(c: char) {
    'A' <= c <= 'Z' || 'a' <= c <= 'z' || '0' <= c <= '9' || c in "-._~@+%"
  }

  lemma {:induction false} QuoteIsSafe(a: Address, i: nat)
    requires i < |Quote(a)|
    ensures SafeChar(Quote(a)[i])
    decreases |a|
  {
    var n := |QuoteByte(a[0])|;
    if i < n { QuoteByteIsSafe(a[0], i); } else { QuoteIsSafe(a[1..], i - n); }
  }

  lemma QuoteByteIsSafe(b: Byte, i: nat)
    requires i < |QuoteByte(b)|
    ensures SafeChar(QuoteByte(b)[i])
  {
    if !Unquoted(b) {
      HexIsSafe(b as int / 16);
      HexIsSafe(b as int % 16);
    }
  }

  lemma HexIsSafe(i: nat)
    requires i < 16
    ensures SafeChar(HEX[i])
  {
  }

  /** A slug names a file of its directory, whatever the address: only safe characters are left in it. */
  lemma SlugIsAFileName(a: Address)
    ensures '/' !in Slugify(a) && forall i :: 0 <= i < |Slugify(a)| ==> SafeChar(Slugify(a)[i])
  {
    forall i | 0 <= i < |Slugify(a)| ensures SafeChar(Slugify(a)[i]) { QuoteIsSafe(Normal(a), i); }
  }
}
