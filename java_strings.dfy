/**
 * The few pieces of java.lang.String and Integer behaviour the modelled code relies on:
 * decimal rendering of an int (string concatenation `"" + x`), substring search
 * (`contains`), `replaceFirst` of a one-character literal and ASCII lower-casing.
 */
module JavaStrings {

  function DigitChar(d: nat): (c: char)
    requires d < 10
    ensures '0' <= c <= '9'
  {
    ('0' as int + d) as char
  }

  /** Decimal rendering of a natural number, without leading zeros. */
  function NatToString(n: nat): (s: string)
    ensures |s| >= 1
    ensures forall i :: 0 <= i < |s| ==> '0' <= s[i] <= '9'
    decreases n
  {
    if n < 10 then [DigitChar(n)] else NatToString(n / 10) + [DigitChar(n % 10)]
  }

  /** Decimal rendering of an int, as Java's `"" + x` writes it. */
  function IntToString(x: int): (s: string)
    ensures |s| >= 1
    ensures forall i :: 0 <= i < |s| ==> s[i] == '-' || '0' <= s[i] <= '9'
  {
    if x < 0 then "-" + NatToString(-x) else NatToString(x)
  }

  lemma NatToStringLength(n: nat)
    ensures n >= 10 <==> |NatToString(n)| >= 2
  {
  }

  /** The rendering of a number of two or more digits splits into the rendering of its
      tens and its last digit. */
  lemma NatToStringSplit(n: nat)
    requires n >= 10
    ensures var s := NatToString(n);
      |s| >= 2 && s[..|s| - 1] == NatToString(n / 10) && s[|s| - 1] == DigitChar(n % 10)
  {
    var s := NatToString(n);
    assert s == NatToString(n / 10) + [DigitChar(n % 10)];
    assert s[..|s| - 1] == NatToString(n / 10);
  }

  lemma {:induction false} NatToStringInjective(a: nat, b: nat)
    requires NatToString(a) == NatToString(b)
    ensures a == b
    decreases a
  {
    NatToStringLength(a);
    NatToStringLength(b);
    if a >= 10 {
      NatToStringSplit(a);
      NatToStringSplit(b);
      NatToStringInjective(a / 10, b / 10);
    }
  }

  lemma SignOfRendering(x: int)
    ensures IntToString(x)[0] == '-' <==> x < 0
  {
  }

  /** Distinct ints render differently, so a rendering can stand for its int. */
  lemma {:induction false} IntToStringInjective(a: int, b: int)
    requires IntToString(a) == IntToString(b)
    ensures a == b
  {
    SignOfRendering(a);
    SignOfRendering(b);
    if a < 0 {
      assert IntToString(a)[1..] == NatToString(-a);
      assert IntToString(b)[1..] == NatToString(-b);
      NatToStringInjective(-a, -b);
    } else {
      NatToStringInjective(a, b);
    }
  }

  /** `s.contains(sub)` */
  predicate Contains(s: string, sub: string)
    decreases |s|
  {
    |sub| <= |s| && (sub <= s || (|s| > 0 && Contains(s[1..], sub)))
  }

  /** The index of the first occurrence of `c` in `s`, if any. */
  function IndexOf(s: string, c: char): (r: int)
    ensures -1 <= r < |s|
    ensures r == -1 <==> c !in s
    ensures r >= 0 ==> s[r] == c && c !in s[..r]
  {
    if |s| == 0 then -1
    else if s[0] == c then 0
    else
      var k := IndexOf(s[1..], c);
      if k == -1 then -1
      else
        assert s[..1 + k] == [s[0]] + s[1..][..k];
        1 + k
  }

  /** `s.replaceFirst(":", ".")`-style replacement of the first occurrence of one character. */
  function ReplaceFirst(s: string, from: char, to: char): (r: string)
    ensures |r| == |s|
    ensures from !in s ==> r == s
    ensures from in s ==> r == s[IndexOf(s, from) := to]
  {
    var i := IndexOf(s, from);
    if i < 0 then s else s[i := to]
  }

  /** Lower-casing of the ASCII letters; other characters are kept. */
  function AsciiLower(c: char): char {
    if 'A' <= c <= 'Z' then (c as int + 32) as char else c
  }

  function ToLowerAscii(s: string): (r: string)
    ensures |r| == |s|
    ensures forall i :: 0 <= i < |s| ==> r[i] == AsciiLower(s[i])
  {
    seq(|s|, i requires 0 <= i < |s| => AsciiLower(s[i]))
  }

  /** Concatenation is associative. */
  lemma ConcatAssoc<T>(a: seq<T>, b: seq<T>, c: seq<T>)
    ensures (a + b) + c == a + (b + c)
  {
  }
}
