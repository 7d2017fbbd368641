/**
 * The quoted-string rule of the command interpreter: a token opened by `"` or `'`,
 * running to the same quote character, with backslash escapes decoded.
 */
module QuotedStringToken {
  import opened Wrappers
  import opened ParseContext

  /** The rule applies where the next character is a quote. */
  predicate MatchesAt(s: string, i: int) {
    0 <= i < |s| && IsQuote(s[i])
  }

  /** The escapes `interpret` decodes: `\n`, `\t`, `\r`, `\\`, `\"` and `\'`, by their second character. */
  const EscapeCodes: map<char, char> :=
    map['n' := '\n', 't' := '\t', 'r' := '\r', '\\' := '\\', '"' := '"', '\'' := '\'']

  /** What the escape `\c` stands for; an unknown escape keeps both characters. */
  function Unescape(c: char): (r: string)
    ensures |r| == 1 || r == ['\\', c]
  {
    if c in EscapeCodes then [EscapeCodes[c]] else ['\\', c]
  }

  /** One pass of the reading loop at `i`: the text it appends, where it stops, and
      whether it met the closing quote. */
  function Step(s: string, i: nat, quote: char): (r: (string, nat, bool))
    requires i < |s|
    ensures i < r.1 <= |s|
    ensures r.2 ==> r.1 == i + 1 && s[i] == quote
  {
    if s[i] == '\\' && i + 1 < |s| then (Unescape(s[i + 1]), i + 2, false)
    else if s[i] == quote then ("", i + 1, true)
    else ([s[i]], i + 1, false)
  }

  /**
   * Scans the body of a string opened by `quote`, from position `i`: the decoded text
   * and the position after the closing quote, or the end of the input when it is unclosed.
   */
  function Body(s: string, i: nat, quote: char): (r: (string, nat))
    requires i <= |s|
    ensures i <= r.1 <= |s|
    ensures r.1 == |s| || (i < r.1 && s[r.1 - 1] == quote)
    decreases |s| - i
  {
    if i == |s| then ("", |s|)
    else
      var step := Step(s, i, quote);
      if step.2 then ("", step.1)
      else
        var rest := Body(s, step.1, quote);
        (step.0 + rest.0, rest.1)
  }

  /** The token read by the rule at `i`: the decoded body and the position after it. */
  function Token(s: string, i: nat): (r: (string, nat))
    requires MatchesAt(s, i)
    ensures i < r.1 <= |s|
  {
    Body(s, i + 1, s[i])
  }

  /** `matches(context)` */
  predicate Matches(ctx: ParseContext)
    reads ctx
  {
    MatchesAt(ctx.input, ctx.position)
  }

  /** `interpret(context)`: no token (and no move) where the rule does not apply. */
  method Interpret(ctx: ParseContext) returns (r: Option<string>)
    requires ctx.Valid()
    modifies ctx
    ensures ctx.Valid()
    ensures !MatchesAt(ctx.input, old(ctx.position)) ==> r == None && ctx.position == old(ctx.position)
    ensures MatchesAt(ctx.input, old(ctx.position)) ==>
      var t := Token(ctx.input, old(ctx.position));
      r == Some(t.0) && ctx.position == t.1
  {
    if !Matches(ctx) {
      return None;
    }
    var open := ctx.Consume();
    var body := ReadBody(ctx, open.value);
    return Some(body);
  }

  /** One pass of the loop of `interpret`. */
  method ReadStep(ctx: ParseContext, quote: char) returns (text: string, closed: bool)
    requires ctx.Valid() && ctx.HasMore()
    modifies ctx
    ensures ctx.Valid()
    ensures (text, ctx.position, closed) == Step(ctx.input, old(ctx.position), quote)
  {
    var c := ctx.Consume();
    var ch := c.value;
    if ch == '\\' && ctx.HasMore() {
      var e := ctx.Consume();
      return Unescape(e.value), false;
    } else if ch == quote {
      return "", true;
    } else {
      return [ch], false;
    }
  }

  /** The loop of `interpret` after the opening quote: reads up to and including the
      closing quote, or to the end of the input. */
  method ReadBody(ctx: ParseContext, quote: char) returns (result: string)
    requires ctx.Valid()
    modifies ctx
    ensures ctx.Valid()
    ensures (result, ctx.position) == Body(ctx.input, old(ctx.position), quote)
  {
    ghost var target := Body(ctx.input, ctx.position, quote);
    result := "";
    while ctx.HasMore()
      invariant ctx.Valid()
      invariant result + Body(ctx.input, ctx.position, quote).0 == target.0
      invariant Body(ctx.input, ctx.position, quote).1 == target.1
      decreases |ctx.input| - ctx.position
    {
      ghost var b := Body(ctx.input, ctx.position, quote);
      var text, closed := ReadStep(ctx, quote);
      if closed {
        assert b == ("", ctx.position);
        assert result + "" == result;
        return;
      }
      ghost var rest := Body(ctx.input, ctx.position, quote);
      assert b == (text + rest.0, rest.1);
      assert (result + text) + rest.0 == result + (text + rest.0);
      result := result + text;
    }
    assert result + "" == result;
  }

  /** The characters written as an escape, each with the second character of its escape. */
  const EscapedChars: map<char, char> :=
    map['\n' := 'n', '\t' := 't', '\r' := 'r', '\\' := '\\', '"' := '"', '\'' := '\'']

  /** The two maps undo each other. */
  lemma EscapeCodesInverse()
    ensures forall c :: c in EscapedChars ==> EscapedChars[c] in EscapeCodes && EscapeCodes[EscapedChars[c]] == c
  {
  }

  /** How `c` is written inside a quoted token. */
  function EscapeChar(c: char): (r: string)
    ensures |r| >= 1
  {
    if c in EscapedChars then ['\\', EscapedChars[c]] else [c]
  }

  /** The body that decodes back to `t`. */
  function Escape(t: string): (r: string)
    ensures |r| >= |t|
  {
    if |t| == 0 then "" else EscapeChar(t[0]) + Escape(t[1..])
  }

  /** The input holds `t`, escaped, from position `i` on. */
  predicate EscapedAt(s: string, i: nat, t: string)
    decreases |t|
  {
    if |t| == 0 then i <= |s|
    else if t[0] in EscapedChars then
      i + 1 < |s| && s[i] == '\\' && s[i + 1] == EscapedChars[t[0]] && EscapedAt(s, i + 2, t[1..])
    else
      i < |s| && s[i] == t[0] && EscapedAt(s, i + 1, t[1..])
  }

  /** The input holds `t` from its `k`-th character on, escaped, from position `i` up to `n`. */
  predicate EscapedFrom(s: string, i: nat, t: string, k: nat, n: nat)
    decreases |t| - k
  {
    if k >= |t| then i == n <= |s|
    else if t[k] in EscapedChars then
      i + 1 < |s| && s[i] == '\\' && s[i + 1] == EscapedChars[t[k]] && EscapedFrom(s, i + 2, t, k + 1, n)
    else
      i < |s| && s[i] == t[k] && EscapedFrom(s, i + 1, t, k + 1, n)
  }

  lemma {:induction false} EscapedFromAt(s: string, i: nat, t: string, k: nat, n: nat)
    requires k <= |t| && EscapedFrom(s, i, t, k, n)
    ensures EscapedAt(s, i, t[k..]) && i + |Escape(t[k..])| == n
    decreases |t| - k
  {
    if k < |t| {
      var j := if t[k] in EscapedChars then i + 2 else i + 1;
      EscapedFromAt(s, j, t, k + 1, n);
      assert t[k..][1..] == t[k + 1..];
    }
  }

  lemma {:induction false} EscapedAtSlice(s: string, i: nat, t: string)
    requires i + |Escape(t)| <= |s| && s[i..i + |Escape(t)|] == Escape(t)
    ensures EscapedAt(s, i, t)
    decreases |t|
  {
    if |t| > 0 {
      var e := EscapeChar(t[0]);
      var tail := Escape(t[1..]);
      assert Escape(t) == e + tail;
      assert s[i] == e[0];
      if |e| == 2 {
        assert s[i + 1] == e[1];
      }
      assert s[i + |e|..i + |e| + |tail|] == tail by {
        assert s[i + |e|..i + |e| + |tail|] == s[i..i + |Escape(t)|][|e|..];
      }
      EscapedAtSlice(s, i + |e|, t[1..]);
    }
  }

  /** Where the input holds `t` escaped and then `quote`, reading the body from there
      yields `t` and stops just after that quote, whatever follows. */
  lemma {:induction false} BodyOfEscape(s: string, i: nat, t: string, quote: char)
    requires IsQuote(quote)
    requires EscapedAt(s, i, t)
    requires i + |Escape(t)| < |s| && s[i + |Escape(t)|] == quote
    ensures Body(s, i, quote) == (t, i + |Escape(t)| + 1)
    decreases |t|
  {
    if |t| > 0 {
      var n := |EscapeChar(t[0])|;
      assert |Escape(t)| == n + |Escape(t[1..])|;
      BodyOfEscape(s, i + n, t[1..], quote);
      if t[0] in EscapedChars {
        EscapeCodesInverse();
        assert Unescape(s[i + 1]) == [t[0]];
      }
      assert Step(s, i, quote) == ([t[0]], i + n, false);
      assert [t[0]] + t[1..] == t;
    }
  }

  /** A quoted token written with `Escape` is read back as exactly its text. */
  lemma QuotedRoundTrip(t: string, quote: char, rest: string)
    requires IsQuote(quote)
    ensures MatchesAt([quote] + Escape(t) + [quote] + rest, 0)
    ensures Token([quote] + Escape(t) + [quote] + rest, 0) == (t, |Escape(t)| + 2)
  {
    var s := [quote] + Escape(t) + [quote] + rest;
    assert s[1..1 + |Escape(t)|] == Escape(t);
    EscapedAtSlice(s, 1, t);
    BodyOfEscape(s, 1, t, quote);
  }

  /** A body with no backslash and no closing quote is read unchanged to the end of the input. */
  lemma {:induction false} UnclosedBody(s: string, i: nat, quote: char)
    requires i <= |s|
    requires forall k :: i <= k < |s| ==> s[k] != '\\' && s[k] != quote
    ensures Body(s, i, quote) == (s[i..], |s|)
    decreases |s| - i
  {
    if i < |s| {
      UnclosedBody(s, i + 1, quote);
      assert s[i..] == [s[i]] + s[i + 1..];
    }
  }

  /** A body with no backslash, closed by the quote at `n`, is read unchanged up to that quote. */
  lemma {:induction false} ClosedBody(s: string, i: nat, n: nat, quote: char)
    requires IsQuote(quote) && i <= n < |s| && s[n] == quote
    requires forall k :: i <= k < n ==> s[k] != '\\' && s[k] != quote
    ensures Body(s, i, quote) == (s[i..n], n + 1)
    decreases n - i
  {
    if i < n {
      ClosedBody(s, i + 1, n, quote);
      assert Step(s, i, quote) == ([s[i]], i + 1, false);
      assert s[i..n] == [s[i]] + s[i + 1..n];
    } else {
      assert Step(s, i, quote) == ("", i + 1, true);
      assert s[i..n] == "";
    }
  }
}
