/**
 * The pieces of Python's `str` that the diagram tools rely on: `isspace`, `strip`,
 * `split()` on whitespace, `' '.join`, `split` on one separator character and `replace`.
 */
module PyStrings {
  import opened JavaStrings

  /** `c.isspace()`: the characters Python counts as whitespace. */
  predicate IsSpace(c: char) {
    var n := c as int;
    n == 32 || 9 <= n <= 13 || 28 <= n <= 31 || n == 0x85 || n == 0xA0 || n == 0x1680
    || 0x2000 <= n <= 0x200A || n == 0x2028 || n == 0x2029 || n == 0x202F || n == 0x205F || n == 0x3000
  }

  /** A string with no whitespace in it. */
  predicate NoSpace(s: string) {
    forall i :: 0 <= i < |s| ==> !IsSpace(s[i])
  }

  /** The number of whitespace characters at the front of `s`. */
  function LeadSpace(s: string): (n: nat)
    ensures n <= |s|
    ensures forall i :: 0 <= i < n ==> IsSpace(s[i])
    ensures n < |s| ==> !IsSpace(s[n])
    decreases |s|
  {
    if s != [] && IsSpace(s[0]) then 1 + LeadSpace(s[1..]) else 0
  }

  /** The number of whitespace characters at the end of `s`. */
  function TrailSpace(s: string): (n: nat)
    ensures n <= |s|
    ensures forall i :: |s| - n <= i < |s| ==> IsSpace(s[i])
    ensures n < |s| ==> !IsSpace(s[|s| - 1 - n])
    decreases |s|
  {
    if s != [] && IsSpace(s[|s| - 1]) then 1 + TrailSpace(s[..|s| - 1]) else 0
  }

  /** `s.strip()`: `s` without its leading and trailing whitespace. */
  function Strip(s: string): (r: string)
    ensures |r| <= |s|
    ensures r != [] ==> !IsSpace(r[0]) && !IsSpace(r[|r| - 1])
  {
    var a := LeadSpace(s);
    if a == |s| then []
    else
      s[a..|s| - TrailSpace(s)]
  }

  /** `strip` gives the empty string exactly for a string of whitespace only. */
  lemma StripBlank(s: string)
    ensures Strip(s) == [] <==> forall i :: 0 <= i < |s| ==> IsSpace(s[i])
  {
  }

  /** Whitespace in front of a string that starts with none is exactly its leading whitespace. */
  lemma {:induction false} LeadSpaceOf(a: string, r: string)
    requires forall i :: 0 <= i < |a| ==> IsSpace(a[i])
    requires r != [] && !IsSpace(r[0])
    ensures LeadSpace(a + r) == |a|
  {
    if a != [] {
      assert (a + r)[1..] == a[1..] + r;
      LeadSpaceOf(a[1..], r);
    } else {
      assert a + r == r;
    }
  }

  /** Whitespace after a string that ends with none is exactly its trailing whitespace. */
  lemma {:induction false} TrailSpaceOf(r: string, b: string)
    requires forall i :: 0 <= i < |b| ==> IsSpace(b[i])
    requires r != [] && !IsSpace(r[|r| - 1])
    ensures TrailSpace(r + b) == |b|
  {
    if b != [] {
      var b' := b[..|b| - 1];
      assert (r + b)[..|r + b| - 1] == r + b';
      TrailSpaceOf(r, b');
    } else {
      assert r + b == r;
    }
  }

  /** `strip` takes off exactly the whitespace around a text that neither begins nor ends with whitespace. */
  lemma StripSurrounded(a: string, r: string, b: string)
    requires forall i :: 0 <= i < |a| ==> IsSpace(a[i])
    requires forall i :: 0 <= i < |b| ==> IsSpace(b[i])
    requires r != [] && !IsSpace(r[0]) && !IsSpace(r[|r| - 1])
    ensures Strip(a + r + b) == r
  {
    var s := a + r + b;
    LeadSpaceOf(a, r + b);
    assert s == a + (r + b);
    TrailSpaceOf(a + r, b);
    assert s[|a|..|s| - |b|] == r;
  }

  /** A string that `strip` leaves alone is left alone again. */
  lemma StripIdempotent(s: string)
    ensures Strip(Strip(s)) == Strip(s)
  {
    var r := Strip(s);
    if r != [] {
      assert LeadSpace(r) == 0;
      assert TrailSpace(r) == 0;
    }
  }

  /** The length of the run of non-whitespace characters at the front of `s`. */
  function WordLen(s: string): (n: nat)
    ensures n <= |s|
    ensures forall i :: 0 <= i < n ==> !IsSpace(s[i])
    ensures n < |s| ==> IsSpace(s[n])
    decreases |s|
  {
    if s != [] && !IsSpace(s[0]) then 1 + WordLen(s[1..]) else 0
  }

  /** A non-empty run of non-whitespace characters. */
  predicate IsWord(w: string) {
    w != [] && NoSpace(w)
  }

  /** `s.split()`: the maximal runs of non-whitespace characters, in order. */
  function Words(s: string): (ws: seq<string>)
    ensures forall k :: 0 <= k < |ws| ==> IsWord(ws[k])
    decreases |s|
  {
    if s == [] then []
    else if IsSpace(s[0]) then Words(s[1..])
    else
      var n := WordLen(s);
      [s[..n]] + Words(s[n..])
  }

  /** A blank string has no words. */
  lemma {:induction false} WordsOfBlank(s: string)
    ensures (forall i :: 0 <= i < |s| ==> IsSpace(s[i])) ==> Words(s) == []
    decreases |s|
  {
    if s != [] && IsSpace(s[0]) {
      WordsOfBlank(s[1..]);
    }
  }

  /** `' '.join(ws)` */
  function JoinSpace(ws: seq<string>): (s: string)
    ensures ws == [] ==> s == []
  {
    if ws == [] then []
    else if |ws| == 1 then ws[0]
    else ws[0] + " " + JoinSpace(ws[1..])
  }

  /** A word followed by whitespace, or by nothing, is the first word. */
  lemma WordsOfWordThen(w: string, rest: string)
    requires IsWord(w) && (rest == [] || IsSpace(rest[0]))
    ensures Words(w + rest) == [w] + Words(rest)
  {
    var s := w + rest;
    assert WordLen(s) == |w| by {
      WordLenOfWordThen(w, rest);
    }
    assert s[..|w|] == w && s[|w|..] == rest;
  }

  lemma {:induction false} WordLenOfWordThen(w: string, rest: string)
    requires NoSpace(w) && (rest == [] || IsSpace(rest[0]))
    ensures WordLen(w + rest) == |w|
    decreases |w|
  {
    if w != [] {
      assert (w + rest)[1..] == w[1..] + rest;
      WordLenOfWordThen(w[1..], rest);
    }
  }

  /** Splitting words joined by single spaces gives the words back. */
  lemma {:induction false} WordsOfJoin(ws: seq<string>)
    requires forall k :: 0 <= k < |ws| ==> IsWord(ws[k])
    ensures Words(JoinSpace(ws)) == ws
  {
    if |ws| == 1 {
      WordsOfWordThen(ws[0], []);
      assert ws[0] + [] == ws[0];
    } else if |ws| > 1 {
      var rest := " " + JoinSpace(ws[1..]);
      assert JoinSpace(ws) == ws[0] + rest;
      WordsOfWordThen(ws[0], rest);
      assert rest[1..] == JoinSpace(ws[1..]);
      WordsOfJoin(ws[1..]);
      assert [ws[0]] + ws[1..] == ws;
    }
  }

  /** `' '.join(s.split())`: every run of whitespace becomes one space, and none is left at the ends. */
  function Collapse(s: string): (r: string)
    ensures Words(r) == Words(s)
  {
    WordsOfJoin(Words(s));
    JoinSpace(Words(s))
  }

  /** A character that is not in `s` is in none of its words. */
  lemma {:induction false} WordsKeepOthers(s: string, c: char)
    requires c !in s
    ensures forall k :: 0 <= k < |Words(s)| ==> c !in Words(s)[k]
    decreases |s|
  {
    if s != [] {
      if IsSpace(s[0]) {
        WordsKeepOthers(s[1..], c);
      } else {
        var n := WordLen(s);
        assert c !in s[..n];
        WordsKeepOthers(s[n..], c);
      }
    }
  }

  lemma {:induction false} JoinKeepsOthers(ws: seq<string>, c: char)
    requires c != ' ' && forall k :: 0 <= k < |ws| ==> c !in ws[k]
    ensures c !in JoinSpace(ws)
  {
    if |ws| > 1 {
      JoinKeepsOthers(ws[1..], c);
    }
  }

  /** Collapsing brings in no character other than the space. */
  lemma CollapseKeepsOthers(s: string, c: char)
    requires c !in s && c != ' '
    ensures c !in Collapse(s)
  {
    WordsKeepOthers(s, c);
    JoinKeepsOthers(Words(s), c);
  }

  /** Collapsing twice is collapsing once. */
  lemma CollapseIdempotent(s: string)
    ensures Collapse(Collapse(s)) == Collapse(s)
  {
  }

  /** `s.split(sep)` for a one-character separator: the pieces between the separators, in order. */
  function SplitOn(s: string, sep: char): (parts: seq<string>)
    ensures |parts| >= 1
    ensures forall k :: 0 <= k < |parts| ==> sep !in parts[k]
    ensures sep !in s ==> parts == [s]
    decreases |s|
  {
    if sep !in s then [s]
    else
      var i := IndexOfChar(s, sep);
      [s[..i]] + SplitOn(s[i + 1..], sep)
  }

  /** The first position of `c` in `s`, which holds it. */
  function IndexOfChar(s: string, c: char): (i: nat)
    requires c in s
    ensures i < |s| && s[i] == c && c !in s[..i]
  {
    if s[0] == c then 0
    else
      var k := IndexOfChar(s[1..], c);
      assert s[..k + 1] == [s[0]] + s[1..][..k];
      k + 1
  }

  /** The first `c` in `a + [c] + b`, when `a` has none, is the one after `a`. */
  lemma {:induction false} IndexOfCharAfter(a: string, c: char, b: string)
    requires c !in a
    ensures IndexOfChar(a + [c] + b, c) == |a|
  {
    if a != [] {
      assert (a + [c] + b)[1..] == a[1..] + [c] + b;
      IndexOfCharAfter(a[1..], c, b);
    }
  }

  /** `sep.join(parts)` */
  function JoinOn(parts: seq<string>, sep: char): string
    requires |parts| >= 1
  {
    if |parts| == 1 then parts[0] else parts[0] + [sep] + JoinOn(parts[1..], sep)
  }

  /** Joining the pieces again with the separator gives the string back. */
  lemma {:induction false} SplitJoin(s: string, sep: char)
    ensures JoinOn(SplitOn(s, sep), sep) == s
    decreases |s|
  {
    if sep in s {
      var i := IndexOfChar(s, sep);
      SplitJoin(s[i + 1..], sep);
      assert s == s[..i] + [sep] + s[i + 1..];
    }
  }

  /** Splitting pieces joined by a separator that none of them holds gives the pieces back. */
  lemma {:induction false} JoinSplit(parts: seq<string>, sep: char)
    requires |parts| >= 1
    requires forall k :: 0 <= k < |parts| ==> sep !in parts[k]
    ensures SplitOn(JoinOn(parts, sep), sep) == parts
  {
    if |parts| > 1 {
      var s := JoinOn(parts, sep);
      assert s == parts[0] + [sep] + JoinOn(parts[1..], sep);
      assert s[|parts[0]|] == sep;
      IndexOfCharAfter(parts[0], sep, JoinOn(parts[1..], sep));
      assert s[..|parts[0]|] == parts[0];
      assert s[|parts[0]| + 1..] == JoinOn(parts[1..], sep);
      JoinSplit(parts[1..], sep);
      assert [parts[0]] + parts[1..] == parts;
    }
  }

  /** `s.replace(pat, rep)`: every occurrence of `pat`, found left to right without overlap, becomes `rep`. */
  function ReplaceAll(s: string, pat: string, rep: string): (r: string)
    requires pat != []
    ensures |rep| <= |pat| ==> |r| <= |s|
    decreases |s|
  {
    if s == [] then []
    else if pat <= s then rep + ReplaceAll(s[|pat|..], pat, rep)
    else [s[0]] + ReplaceAll(s[1..], pat, rep)
  }

  /** A string that does not hold `pat` is not changed by the replacement. */
  lemma {:induction false} ReplaceAllAbsent(s: string, pat: string, rep: string)
    requires pat != [] && !Contains(s, pat)
    ensures ReplaceAll(s, pat, rep) == s
    decreases |s|
  {
    if s != [] {
      assert !(pat <= s);
      assert !Contains(s[1..], pat);
      ReplaceAllAbsent(s[1..], pat, rep);
    }
  }

  /** When `sub in s` fails, no position of `s` holds `sub`. */
  lemma {:induction false} NotContainsAt(s: string, sub: string, i: nat)
    requires !Contains(s, sub) && i + |sub| <= |s|
    ensures s[i..i + |sub|] != sub
    decreases i
  {
    if i == 0 {
      assert !(sub <= s);
    } else {
      assert !Contains(s[1..], sub);
      NotContainsAt(s[1..], sub, i - 1);
      assert s[1..][i - 1..i - 1 + |sub|] == s[i..i + |sub|];
    }
  }
}
