/**
 * The command-line interpreter: splits a command line into tokens by trying, at each
 * token start, the quoted-string, number and word rules in that order.
 */
module CommandExpression {
  import opened Wrappers
  import opened ParseContext
  import QuotedStringToken
  import NumberToken
  import WordToken

  /** The terminal rules the interpreter holds. */
  datatype Terminal = QuotedString | Number | Word

  /** The rules in the order they are tried. */
  const Terminals: seq<Terminal> := [QuotedString, Number, Word]

  predicate TerminalMatchesAt(e: Terminal, s: string, i: int) {
    match e
    case QuotedString => QuotedStringToken.MatchesAt(s, i)
    case Number => NumberToken.MatchesAt(s, i)
    case Word => WordToken.MatchesAt(s, i)
  }

  function TerminalToken(e: Terminal, s: string, i: nat): (r: (string, nat))
    requires TerminalMatchesAt(e, s, i)
    ensures i < r.1 <= |s|
  {
    match e
    case QuotedString => QuotedStringToken.Token(s, i)
    case Number => NumberToken.Token(s, i)
    case Word => WordToken.Token(s, i)
  }

  /** `expression.matches(context)` for a terminal rule. */
  predicate TerminalMatches(e: Terminal, ctx: ParseContext)
    reads ctx
  {
    TerminalMatchesAt(e, ctx.input, ctx.position)
  }

  /** `expression.interpret(context)` for a terminal rule. */
  method TerminalInterpret(e: Terminal, ctx: ParseContext) returns (r: Option<string>)
    requires ctx.Valid()
    modifies ctx
    ensures ctx.Valid()
    ensures !TerminalMatchesAt(e, ctx.input, old(ctx.position)) ==> r == None && ctx.position == old(ctx.position)
    ensures TerminalMatchesAt(e, ctx.input, old(ctx.position)) ==>
      var t := TerminalToken(e, ctx.input, old(ctx.position));
      r == Some(t.0) && ctx.position == t.1
  {
    match e
    case QuotedString => r := QuotedStringToken.Interpret(ctx);
    case Number => r := NumberToken.Interpret(ctx);
    case Word => r := WordToken.Interpret(ctx);
  }

  /** The first rule, in order, that applies at `i`. */
  function FirstMatch(s: string, i: int): (r: Option<Terminal>)
    ensures r.Some? ==> r.value in Terminals && TerminalMatchesAt(r.value, s, i)
    ensures 0 <= i < |s| && !IsWhitespace(s[i]) ==> r.Some?
  {
    if QuotedStringToken.MatchesAt(s, i) then Some(QuotedString)
    else if NumberToken.MatchesAt(s, i) then Some(Number)
    else if WordToken.MatchesAt(s, i) then Some(Word)
    else None
  }

  /** The token that starts at a character that is not whitespace, and the position after it. */
  function NextToken(s: string, i: nat): (r: (string, nat))
    requires i < |s| && !IsWhitespace(s[i])
    ensures i < r.1 <= |s|
  {
    TerminalToken(FirstMatch(s, i).value, s, i)
  }

  /** The tokens of `s` from position `i` on. */
  function TokensFrom(s: string, i: nat): (r: seq<string>)
    requires i <= |s|
    decreases |s| - i, 1
  {
    TokensAt(s, SkipWs(s, i))
  }

  /** The tokens of `s` from a position `j` that holds no whitespace, or from its end. */
  function TokensAt(s: string, j: nat): (r: seq<string>)
    requires j <= |s| && (j < |s| ==> !IsWhitespace(s[j]))
    decreases |s| - j, 0
  {
    if j == |s| then []
    else
      var t := NextToken(s, j);
      [t.0] + TokensFrom(s, t.1)
  }

  /** The tokens of a command line. */
  function Tokenize(s: string): seq<string> {
    TokensFrom(s, 0)
  }

  /** `matches(context)`: the command always matches, even an empty one. */
  predicate Matches(ctx: ParseContext) {
    true
  }

  /** `interpret(context)`: the command is not read as a single token. */
  function Interpret(ctx: ParseContext): (r: Result<string>)
    ensures r.Err? && r.error.UnsupportedOperation?
  {
    Err(UnsupportedOperation("Use parseTokens() for CommandExpression"))
  }

  /** Tries the terminal rules in order at the position; the token of the first that applies. */
  method InterpretFirst(ctx: ParseContext) returns (token: Option<string>)
    requires ctx.Valid() && ctx.HasMore() && !IsWhitespace(ctx.input[ctx.position])
    modifies ctx
    ensures ctx.Valid()
    ensures var t := NextToken(ctx.input, old(ctx.position));
      token == Some(t.0) && ctx.position == t.1
  {
    ghost var p := ctx.position;
    ghost var first := FirstMatch(ctx.input, p);
    token := None;
    var k := 0;
    while k < |Terminals|
      invariant 0 <= k <= |Terminals|
      invariant ctx.Valid() && ctx.position == p && token == None
      invariant forall m :: 0 <= m < k ==> !TerminalMatchesAt(Terminals[m], ctx.input, p)
    {
      if TerminalMatches(Terminals[k], ctx) {
        assert FirstMatch(ctx.input, p) == Some(Terminals[k]);
        token := TerminalInterpret(Terminals[k], ctx);
        return;
      }
      k := k + 1;
    }
    assert false;
  }

  /** `parseTokens(input)`: the tokens of the whole command line. */
  method ParseTokens(input: string) returns (tokens: seq<string>)
    ensures tokens == Tokenize(input)
  {
    tokens := [];
    var ctx := new ParseContext(input);
    while ctx.HasMore()
      invariant ctx.Valid() && ctx.input == input
      invariant tokens + TokensFrom(input, ctx.position) == Tokenize(input)
      decreases |input| - ctx.position
    {
      ghost var before := ctx.position;
      ctx.SkipWhitespace();
      if !ctx.HasMore() {
        break;
      }
      var token := InterpretFirst(ctx);
      assert TokensFrom(input, before) == [token.value] + TokensFrom(input, ctx.position);
      tokens := tokens + [token.value];
    }
    assert TokensFrom(input, ctx.position) == [];
  }

  /** `parse(input)`: the same tokens, as an array. */
  method Parse(input: string) returns (a: array<string>)
    ensures fresh(a)
    ensures a[..] == Tokenize(input)
  {
    var tokens := ParseTokens(input);
    a := new string[|tokens|](i requires 0 <= i < |tokens| => tokens[i]);
  }

  /** A command line has no tokens exactly when it is all whitespace (or empty). */
  lemma NoTokensIffBlank(s: string)
    ensures Tokenize(s) == [] <==> forall k :: 0 <= k < |s| ==> IsWhitespace(s[k])
  {
    var j := SkipWs(s, 0);
    SkippedAreWhitespace(s, 0);
    assert Tokenize(s) == TokensAt(s, j);
    if j < |s| {
      assert TokensAt(s, j) == [NextToken(s, j).0] + TokensFrom(s, NextToken(s, j).1);
    }
  }

  /** Whitespace before a token start does not change the tokens read from there. */
  lemma TokensFromSkipsWhitespace(s: string, i: nat)
    requires i < |s| && IsWhitespace(s[i])
    ensures TokensFrom(s, i) == TokensFrom(s, i + 1)
  {
    assert SkipWs(s, i) == SkipWs(s, i + 1);
  }

  /** A token written in double quotes with its special characters escaped. */
  function Quote(t: string): (r: string)
    ensures |r| == |QuotedStringToken.Escape(t)| + 2
  {
    "\"" + QuotedStringToken.Escape(t) + "\""
  }

  /** A command line that spells out `ts`, each token quoted and followed by a space. */
  function Render(ts: seq<string>): string {
    if |ts| == 0 then "" else Quote(ts[0]) + " " + Render(ts[1..])
  }

  /** At a character that is not whitespace, the tokens are the token read there and the ones after it. */
  lemma TokensFromTokenStart(s: string, i: nat)
    requires i < |s| && !IsWhitespace(s[i])
    ensures TokensFrom(s, i) == [NextToken(s, i).0] + TokensFrom(s, NextToken(s, i).1)
  {
  }

  /** The input holds `t` quoted, as `Quote` writes it, from position `i` on. */
  predicate QuotedAt(s: string, i: nat, t: string) {
    var e := QuotedStringToken.Escape(t);
    i + |e| + 1 < |s| && s[i] == '"' && QuotedStringToken.EscapedAt(s, i + 1, t) && s[i + |e| + 1] == '"'
  }

  lemma QuotedAtSlice(s: string, i: nat, t: string)
    requires i + |Quote(t)| <= |s| && s[i..i + |Quote(t)|] == Quote(t)
    ensures QuotedAt(s, i, t)
  {
    var e := QuotedStringToken.Escape(t);
    assert s[i] == Quote(t)[0] == '"';
    assert s[i + |e| + 1] == Quote(t)[|e| + 1] == '"';
    assert s[i + 1..i + 1 + |e|] == e by {
      forall k | 0 <= k < |e|
        ensures s[i + 1 + k] == e[k]
      {
        assert s[i + 1 + k] == s[i..i + |Quote(t)|][1 + k] == Quote(t)[1 + k];
      }
    }
    QuotedStringToken.EscapedAtSlice(s, i + 1, t);
  }

  /** A quoted token is read back as its text, ending just after its closing quote. */
  lemma QuotedNext(s: string, i: nat, t: string)
    requires QuotedAt(s, i, t)
    ensures !IsWhitespace(s[i]) && NextToken(s, i) == (t, i + |QuotedStringToken.Escape(t)| + 2)
  {
    QuotedStringToken.BodyOfEscape(s, i + 1, t, '"');
  }

  /** A token followed by whitespace: reading goes on after that whitespace. */
  lemma TokenThenWhitespace(s: string, i: nat)
    requires i < |s| && !IsWhitespace(s[i])
    requires NextToken(s, i).1 < |s| && IsWhitespace(s[NextToken(s, i).1])
    ensures TokensFrom(s, i) == [NextToken(s, i).0] + TokensFrom(s, NextToken(s, i).1 + 1)
  {
    TokensFromTokenStart(s, i);
    TokensFromSkipsWhitespace(s, NextToken(s, i).1);
  }

  /** The input holds `ts` rendered, from position `i` to its end. */
  predicate RenderedAt(s: string, i: nat, ts: seq<string>)
    decreases |ts|
  {
    if |ts| == 0 then i == |s|
    else
      var n := i + |QuotedStringToken.Escape(ts[0])| + 2;
      QuotedAt(s, i, ts[0]) && n < |s| && s[n] == ' ' && RenderedAt(s, n + 1, ts[1..])
  }

  /** A rendering of a non-empty list splits into the first token quoted, a space, and the rest. */
  lemma RenderParts(s: string, i: nat, ts: seq<string>)
    requires |ts| > 0 && i <= |s| && s[i..] == Render(ts)
    ensures i + |Quote(ts[0])| < |s|
    ensures s[i..i + |Quote(ts[0])|] == Quote(ts[0])
    ensures s[i + |Quote(ts[0])|] == ' '
    ensures s[i + |Quote(ts[0])| + 1..] == Render(ts[1..])
  {
    var q := Quote(ts[0]);
    assert s[i..] == q + " " + Render(ts[1..]);
    assert s[i..i + |q|] == s[i..][..|q|];
    assert s[i + |q|] == s[i..][|q|];
    assert s[i + |q| + 1..] == s[i..][|q| + 1..];
  }

  lemma {:induction false} RenderedAtSuffix(s: string, i: nat, ts: seq<string>)
    requires i <= |s| && s[i..] == Render(ts)
    ensures RenderedAt(s, i, ts)
    decreases |ts|
  {
    if |ts| > 0 {
      RenderParts(s, i, ts);
      QuotedAtSlice(s, i, ts[0]);
      RenderedAtSuffix(s, i + |Quote(ts[0])| + 1, ts[1..]);
    }
  }

  /** A rendering holds its first token quoted, then a space, then the rest rendered. */
  lemma RenderedAtFirst(s: string, i: nat, ts: seq<string>)
    requires |ts| > 0 && RenderedAt(s, i, ts)
    ensures var n := i + |QuotedStringToken.Escape(ts[0])| + 2;
      QuotedAt(s, i, ts[0]) && n < |s| && s[n] == ' ' && RenderedAt(s, n + 1, ts[1..])
  {
  }

  /** A quoted token followed by a space: the token is read, and reading goes on after the space. */
  lemma QuotedThenSpace(s: string, i: nat, t: string)
    requires QuotedAt(s, i, t)
    requires i + |QuotedStringToken.Escape(t)| + 2 < |s| && s[i + |QuotedStringToken.Escape(t)| + 2] == ' '
    ensures TokensFrom(s, i) == [t] + TokensFrom(s, i + |QuotedStringToken.Escape(t)| + 3)
  {
    QuotedNext(s, i, t);
    TokenThenWhitespace(s, i);
  }

  /** Reading a rendering from its start yields the rendered tokens. */
  lemma {:induction false} TokensOfRendered(s: string, i: nat, ts: seq<string>)
    requires i <= |s| && RenderedAt(s, i, ts)
    ensures TokensFrom(s, i) == ts
    decreases |ts|
  {
    if |ts| == 0 {
      assert SkipWs(s, i) == |s|;
    } else {
      var n := i + |QuotedStringToken.Escape(ts[0])| + 2;
      RenderedAtFirst(s, i, ts);
      QuotedThenSpace(s, i, ts[0]);
      TokensOfRendered(s, n + 1, ts[1..]);
      assert [ts[0]] + ts[1..] == ts;
    }
  }

  /** Any list of tokens, written out quoted and escaped, is read back unchanged. */
  lemma RenderRoundTrip(ts: seq<string>)
    ensures Tokenize(Render(ts)) == ts
  {
    RenderedAtSuffix(Render(ts), 0, ts);
    TokensOfRendered(Render(ts), 0, ts);
  }

  // The cases of the console parsing test, from the shapes of the tokens they hold.

  /** Every character from `i` up to `n` is whitespace. */
  predicate SpaceRun(s: string, i: int, n: int)
    decreases n - i
  {
    i >= n || (0 <= i < |s| && IsWhitespace(s[i]) && SpaceRun(s, i + 1, n))
  }

  /** No character from `i` up to `n` ends a word. */
  predicate WordRun(s: string, i: int, n: int)
    decreases n - i
  {
    i >= n || (0 <= i < |s| && !WordToken.IsWordStop(s[i]) && WordRun(s, i + 1, n))
  }

  /** Every character from `i` up to `n` is a digit. */
  predicate DigitsRun(s: string, i: int, n: int)
    decreases n - i
  {
    i >= n || (0 <= i < |s| && IsDigit(s[i]) && DigitsRun(s, i + 1, n))
  }

  /** No character from `i` up to `n` is a backslash or the quote `q`. */
  predicate PlainRun(s: string, i: int, n: int, q: char)
    decreases n - i
  {
    i >= n || (0 <= i < |s| && s[i] != '\\' && s[i] != q && PlainRun(s, i + 1, n, q))
  }

  /** Whitespace from `i` up to `n`: reading from `i` is reading from `n`. */
  lemma {:induction false} SpacesThen(s: string, i: nat, n: nat)
    requires i <= n <= |s| && SpaceRun(s, i, n)
    requires n < |s| ==> !IsWhitespace(s[n])
    ensures SkipWs(s, i) == n && TokensFrom(s, i) == TokensFrom(s, n)
    decreases n - i
  {
    if i < n {
      SpacesThen(s, i + 1, n);
    }
  }

  lemma {:induction false} WordEndAt(s: string, i: nat, n: nat)
    requires i <= n <= |s| && WordRun(s, i, n)
    requires n < |s| ==> WordToken.IsWordStop(s[n])
    ensures WordToken.End(s, i) == n
    decreases n - i
  {
    if i < n {
      WordEndAt(s, i + 1, n);
    }
  }

  lemma {:induction false} DigitRunAt(s: string, i: nat, n: nat)
    requires i <= n <= |s| && DigitsRun(s, i, n)
    requires n < |s| ==> !IsDigit(s[n])
    ensures NumberToken.DigitRun(s, i) == n
    decreases n - i
  {
    if i < n {
      DigitRunAt(s, i + 1, n);
    }
  }

  lemma {:induction false} PlainRunAll(s: string, i: nat, n: nat, q: char)
    requires i <= n <= |s| && PlainRun(s, i, n, q)
    ensures forall k :: i <= k < n ==> s[k] != '\\' && s[k] != q
    decreases n - i
  {
    if i < n {
      PlainRunAll(s, i + 1, n, q);
    }
  }

  /** A word from `i` to `n` that starts with neither a quote nor a number, then whitespace or the end:
      it is the next token. */
  lemma WordThen(s: string, i: nat, n: nat)
    requires i < n <= |s| && WordRun(s, i, n)
    requires s[i] != '-' && !IsDigit(s[i])
    requires n < |s| ==> IsWhitespace(s[n])
    ensures TokensFrom(s, i) == [s[i..n]] + TokensFrom(s, n)
  {
    WordEndAt(s, i, n);
    TokensFromTokenStart(s, i);
  }

  /** Where the number rule applies at `i` and reads up to `n`, the number is the token read at `i`. */
  lemma NumberAt(s: string, i: nat, n: nat)
    requires NumberToken.MatchesAt(s, i) && NumberToken.End(s, i) == n
    ensures !IsWhitespace(s[i]) && NextToken(s, i) == (s[i..n], n)
  {
    assert FirstMatch(s, i) == Some(Number);
  }

  /** A whole number from `i` to `d`, with or without a minus sign: the number rule applies at `i` and
      its integer part ends at `d`. */
  lemma IntegerPartAt(s: string, i: nat, d: nat)
    requires i < d <= |s| && DigitsRun(s, i + 1, d)
    requires IsDigit(s[i]) || (s[i] == '-' && i + 1 < d)
    requires d < |s| ==> !IsDigit(s[d])
    ensures NumberToken.MatchesAt(s, i) && NumberToken.IntegerEnd(s, i) == d
  {
    DigitRunAt(s, if s[i] == '-' then i + 1 else i, d);
  }

  /** A whole number from `i` to `n`, with or without a minus sign, then whitespace or the end: it is the
      next token. */
  lemma IntegerThen(s: string, i: nat, n: nat)
    requires i < n <= |s| && DigitsRun(s, i + 1, n)
    requires IsDigit(s[i]) || (s[i] == '-' && i + 1 < n)
    requires n < |s| ==> IsWhitespace(s[n])
    ensures TokensFrom(s, i) == [s[i..n]] + TokensFrom(s, n)
  {
    IntegerPartAt(s, i, n);
    NumberAt(s, i, n);
    TokensFromTokenStart(s, i);
  }

  /** A number with a fraction, its dot at `d`, from `i` to `n`: the number rule read from `i` ends at
      `n`. */
  lemma FractionEndAt(s: string, i: nat, d: nat, n: nat)
    requires i < d && d + 1 < n <= |s| && s[d] == '.'
    requires DigitsRun(s, i + 1, d) && DigitsRun(s, d + 1, n)
    requires IsDigit(s[i]) || (s[i] == '-' && i + 1 < d)
    requires n < |s| ==> !IsDigit(s[n])
    ensures NumberToken.MatchesAt(s, i) && NumberToken.End(s, i) == n
  {
    IntegerPartAt(s, i, d);
    DigitRunAt(s, d + 1, n);
  }

  /** A number with a fraction, its dot at `d`, from `i` to `n`, then whitespace or the end: it is the
      next token. */
  lemma DecimalThen(s: string, i: nat, d: nat, n: nat)
    requires i < d && d + 1 < n <= |s| && s[d] == '.'
    requires DigitsRun(s, i + 1, d) && DigitsRun(s, d + 1, n)
    requires IsDigit(s[i]) || (s[i] == '-' && i + 1 < d)
    requires n < |s| ==> IsWhitespace(s[n])
    ensures TokensFrom(s, i) == [s[i..n]] + TokensFrom(s, n)
  {
    FractionEndAt(s, i, d, n);
    NumberAt(s, i, n);
    TokensFromTokenStart(s, i);
  }

  /** A quoted string without backslashes, closed at `n`: its body is the token read at `i`. */
  lemma QuotedPlainAt(s: string, i: nat, n: nat)
    requires i < n < |s| && IsQuote(s[i]) && s[n] == s[i] && PlainRun(s, i + 1, n, s[i])
    ensures !IsWhitespace(s[i]) && NextToken(s, i) == (s[i + 1..n], n + 1)
  {
    PlainRunAll(s, i + 1, n, s[i]);
    QuotedStringToken.ClosedBody(s, i + 1, n, s[i]);
    assert FirstMatch(s, i) == Some(QuotedString);
  }

  /** A quoted string without backslashes, closed at `n`, then whitespace or the end: its body is the
      next token. */
  lemma QuotedPlainThen(s: string, i: nat, n: nat)
    requires i < n < |s| && IsQuote(s[i]) && s[n] == s[i] && PlainRun(s, i + 1, n, s[i])
    requires n + 1 < |s| ==> IsWhitespace(s[n + 1])
    ensures TokensFrom(s, i) == [s[i + 1..n]] + TokensFrom(s, n + 1)
  {
    QuotedPlainAt(s, i, n);
    TokensFromTokenStart(s, i);
  }

  /** A quoted string that is never closed and holds no backslash: its body, to the end of the input, is
      the last token. */
  lemma UnclosedThen(s: string, i: nat)
    requires i < |s| && IsQuote(s[i]) && PlainRun(s, i + 1, |s|, s[i])
    ensures TokensFrom(s, i) == [s[i + 1..]]
  {
    PlainRunAll(s, i + 1, |s|, s[i]);
    QuotedStringToken.UnclosedBody(s, i + 1, s[i]);
    TokensFromTokenStart(s, i);
  }

  /** A quoted string that spells `t` with escapes and is closed at `n`: `t` is the token read at `i`. */
  lemma QuotedEscapedAt(s: string, i: nat, t: string, n: nat)
    requires i < |s| && IsQuote(s[i]) && QuotedStringToken.EscapedFrom(s, i + 1, t, 0, n)
    requires n < |s| && s[n] == s[i]
    ensures !IsWhitespace(s[i]) && NextToken(s, i) == (t, n + 1)
  {
    QuotedStringToken.EscapedFromAt(s, i + 1, t, 0, n);
    assert t[0..] == t;
    QuotedStringToken.BodyOfEscape(s, i + 1, t, s[i]);
    assert FirstMatch(s, i) == Some(QuotedString);
  }

  /** A quoted string that spells `t` with escapes, closed at `n`, then whitespace or the end: `t` is the
      next token. */
  lemma QuotedEscapedThen(s: string, i: nat, t: string, n: nat)
    requires i < |s| && IsQuote(s[i]) && QuotedStringToken.EscapedFrom(s, i + 1, t, 0, n)
    requires n < |s| && s[n] == s[i]
    requires n + 1 < |s| ==> IsWhitespace(s[n + 1])
    ensures TokensFrom(s, i) == [t] + TokensFrom(s, n + 1)
  {
    QuotedEscapedAt(s, i, t, n);
    TokensFromTokenStart(s, i);
  }

  /** `t` is spelled in `s` from position `i` on, its first `k` characters left aside. */
  predicate Spells(s: string, i: nat, t: string, k: nat)
    decreases |t| - k
  {
    k >= |t| || (i + k < |s| && s[i + k] == t[k] && Spells(s, i, t, k + 1))
  }

  lemma {:induction false} SpellsFrom(s: string, i: nat, t: string, k: nat)
    requires k <= |t| && i + k <= |s| && Spells(s, i, t, k)
    ensures i + |t| <= |s| && forall j :: k <= j < |t| ==> s[i + j] == t[j]
    decreases |t| - k
  {
    if k < |t| {
      SpellsFrom(s, i, t, k + 1);
    }
  }

  lemma SpellsSlice(s: string, i: nat, t: string)
    requires i <= |s| && Spells(s, i, t, 0)
    ensures i + |t| <= |s| && s[i..i + |t|] == t
  {
    SpellsFrom(s, i, t, 0);
  }

  /** The characters `t` spells at `i` in `s`. */
  lemma SpellsChars(s: string, i: nat, t: string)
    requires i <= |s| && Spells(s, i, t, 0)
    ensures i + |t| <= |s| && forall j :: 0 <= j < |t| ==> s[i + j] == t[j]
  {
    SpellsFrom(s, i, t, 0);
  }

  lemma {:induction false} SpaceRunSpelled(s: string, i: nat, t: string, k: nat, n: nat)
    requires k <= n <= |t| && i + |t| <= |s| && forall j :: 0 <= j < |t| ==> s[i + j] == t[j]
    requires SpaceRun(t, k, n)
    ensures SpaceRun(s, i + k, i + n)
    decreases n - k
  {
    if k < n {
      SpaceRunSpelled(s, i, t, k + 1, n);
    }
  }

  lemma {:induction false} WordRunSpelled(s: string, i: nat, t: string, k: nat, n: nat)
    requires k <= n <= |t| && i + |t| <= |s| && forall j :: 0 <= j < |t| ==> s[i + j] == t[j]
    requires WordRun(t, k, n)
    ensures WordRun(s, i + k, i + n)
    decreases n - k
  {
    if k < n {
      WordRunSpelled(s, i, t, k + 1, n);
    }
  }

  lemma {:induction false} DigitsRunSpelled(s: string, i: nat, t: string, k: nat, n: nat)
    requires k <= n <= |t| && i + |t| <= |s| && forall j :: 0 <= j < |t| ==> s[i + j] == t[j]
    requires DigitsRun(t, k, n)
    ensures DigitsRun(s, i + k, i + n)
    decreases n - k
  {
    if k < n {
      DigitsRunSpelled(s, i, t, k + 1, n);
    }
  }

  lemma {:induction false} PlainRunSpelled(s: string, i: nat, t: string, k: nat, n: nat, q: char)
    requires k <= n <= |t| && i + |t| <= |s| && forall j :: 0 <= j < |t| ==> s[i + j] == t[j]
    requires PlainRun(t, k, n, q)
    ensures PlainRun(s, i + k, i + n, q)
    decreases n - k
  {
    if k < n {
      PlainRunSpelled(s, i, t, k + 1, n, q);
    }
  }

  lemma {:induction false} EscapedSpelled(s: string, i: nat, e: string, a: nat, t: string, k: nat)
    requires a <= |e| && k <= |t| && i + |e| <= |s| && forall j :: 0 <= j < |e| ==> s[i + j] == e[j]
    requires QuotedStringToken.EscapedFrom(e, a, t, k, |e|)
    ensures QuotedStringToken.EscapedFrom(s, i + a, t, k, i + |e|)
    decreases |t| - k
  {
    if k < |t| {
      EscapedSpelled(s, i, e, if t[k] in QuotedStringToken.EscapedChars then a + 2 else a + 1, t, k + 1);
    }
  }

  /** A run of whitespace `w` spelled at `i`, then a token or the end: reading from `i` is reading from
      after `w`. */
  lemma SpacesPiece(s: string, i: nat, w: string)
    requires PieceAt(s, i, Blank(w))
    ensures i + |w| <= |s| && TokensFrom(s, i) == TokensFrom(s, i + |w|)
  {
    SpellsChars(s, i, w);
    SpaceRunSpelled(s, i, w, 0, |w|);
    SpacesThen(s, i, i + |w|);
  }

  /** A word `w` spelled at `i` that starts with neither a quote nor a number, then whitespace or the
      end: `w` is the next token. */
  lemma WordPiece(s: string, i: nat, w: string)
    requires PieceAt(s, i, Bare(w))
    ensures i + |w| <= |s| && TokensFrom(s, i) == [w] + TokensFrom(s, i + |w|)
  {
    var n := i + |w|;
    SpellsChars(s, i, w);
    WordRunSpelled(s, i, w, 0, |w|);
    WordThen(s, i, n);
    SpellsSlice(s, i, w);
    assert s[i..n] == w;
  }

  /** A whole number `w` spelled at `i`, then whitespace or the end: `w` is the next token. */
  lemma IntegerPiece(s: string, i: nat, w: string)
    requires PieceAt(s, i, Whole(w))
    ensures i + |w| <= |s| && TokensFrom(s, i) == [w] + TokensFrom(s, i + |w|)
  {
    var n := i + |w|;
    SpellsChars(s, i, w);
    DigitsRunSpelled(s, i, w, 1, |w|);
    IntegerThen(s, i, n);
    SpellsSlice(s, i, w);
    assert s[i..n] == w;
  }

  /** A number `w` with a fraction, its dot at `d`, spelled at `i`, then whitespace or the end: `w` is
      the next token. */
  lemma DecimalPiece(s: string, i: nat, w: string, d: nat)
    requires PieceAt(s, i, Fraction(w, d))
    ensures i + |w| <= |s| && TokensFrom(s, i) == [w] + TokensFrom(s, i + |w|)
  {
    var n := i + |w|;
    SpellsChars(s, i, w);
    DigitsRunSpelled(s, i, w, 1, d);
    DigitsRunSpelled(s, i, w, d + 1, |w|);
    DecimalThen(s, i, i + d, n);
    SpellsSlice(s, i, w);
    assert s[i..n] == w;
  }

  /** `t`, holding no backslash and no `q`, between two `q` quotes at `i`, then whitespace or the end:
      `t` is the next token. */
  lemma QuotedPlainPiece(s: string, i: nat, q: char, t: string)
    requires PieceAt(s, i, Quoted(q, t))
    ensures TokensFrom(s, i) == [t] + TokensFrom(s, i + |t| + 2)
  {
    var n := i + |t| + 1;
    SpellsChars(s, i + 1, t);
    PlainRunSpelled(s, i + 1, t, 0, |t|, q);
    QuotedPlainThen(s, i, n);
    SpellsSlice(s, i + 1, t);
    assert s[i + 1..n] == t;
  }

  /** `t`, holding no backslash and no `q`, after a `q` quote at `i` and up to the end: `t` is the last
      token. */
  lemma UnclosedPiece(s: string, i: nat, q: char, t: string)
    requires PieceAt(s, i, Open(q, t))
    ensures TokensFrom(s, i) == [t]
  {
    SpellsChars(s, i + 1, t);
    PlainRunSpelled(s, i + 1, t, 0, |t|, q);
    SpellsSlice(s, i + 1, t);
    assert s[i + 1..] == s[i + 1..i + 1 + |t|];
    UnclosedThen(s, i);
  }

  /** `e`, the escaped writing of `t`, between two `q` quotes at `i`, then whitespace or the end: `t` is
      the next token. */
  lemma EscapedPiece(s: string, i: nat, q: char, e: string, t: string)
    requires PieceAt(s, i, Escaped(q, e, t))
    ensures TokensFrom(s, i) == [t] + TokensFrom(s, i + |e| + 2)
  {
    SpellsChars(s, i + 1, e);
    EscapedSpelled(s, i + 1, e, 0, t, 0);
    QuotedEscapedThen(s, i, t, i + |e| + 1);
  }

  /** The pieces a command line is cut into: a run of whitespace, a word, a whole number, a number whose
      dot is at `dot`, and a string in `q` quotes (written plainly, with escapes as `e`, or left open). */
  datatype Piece =
    | Blank(w: string)
    | Bare(w: string)
    | Whole(w: string)
    | Fraction(w: string, dot: nat)
    | Quoted(q: char, t: string)
    | Escaped(q: char, e: string, t: string)
    | Open(q: char, t: string)

  /** How many characters a piece takes in the input. */
  function Width(p: Piece): nat {
    match p
    case Blank(w) => |w|
    case Bare(w) => |w|
    case Whole(w) => |w|
    case Fraction(w, _) => |w|
    case Quoted(_, t) => |t| + 2
    case Escaped(_, e, _) => |e| + 2
    case Open(_, t) => |t| + 1
  }

  /** The token a piece stands for: none for whitespace. */
  function TokenOf(p: Piece): seq<string> {
    match p
    case Blank(_) => []
    case Bare(w) => [w]
    case Whole(w) => [w]
    case Fraction(w, _) => [w]
    case Quoted(_, t) => [t]
    case Escaped(_, _, t) => [t]
    case Open(_, t) => [t]
  }

  /** The tokens the pieces from the `k`-th on stand for. */
  function TokensOf(ps: seq<Piece>, k: nat): seq<string>
    decreases |ps| - k
  {
    if k >= |ps| then [] else TokenOf(ps[k]) + TokensOf(ps, k + 1)
  }

  /** `s` holds the piece `p` at `i`, with what must follow it. */
  predicate PieceAt(s: string, i: nat, p: Piece) {
    match p
    case Blank(w) =>
      i <= |s| && Spells(s, i, w, 0) && SpaceRun(w, 0, |w|) && (i + |w| < |s| ==> !IsWhitespace(s[i + |w|]))
    case Bare(w) =>
      i <= |s| && Spells(s, i, w, 0) && 0 < |w| && WordRun(w, 0, |w|) && w[0] != '-' && !IsDigit(w[0])
      && (i + |w| < |s| ==> IsWhitespace(s[i + |w|]))
    case Whole(w) =>
      i <= |s| && Spells(s, i, w, 0) && 0 < |w| && DigitsRun(w, 1, |w|) && (IsDigit(w[0]) || (w[0] == '-' && 1 < |w|))
      && (i + |w| < |s| ==> IsWhitespace(s[i + |w|]))
    case Fraction(w, d) =>
      i <= |s| && Spells(s, i, w, 0) && 0 < d && d + 1 < |w| && w[d] == '.' && DigitsRun(w, 1, d)
      && DigitsRun(w, d + 1, |w|) && (IsDigit(w[0]) || (w[0] == '-' && 1 < d))
      && (i + |w| < |s| ==> IsWhitespace(s[i + |w|]))
    case Quoted(q, t) =>
      IsQuote(q) && i < |s| && s[i] == q && Spells(s, i + 1, t, 0) && PlainRun(t, 0, |t|, q)
      && i + |t| + 1 < |s| && s[i + |t| + 1] == q && (i + |t| + 2 < |s| ==> IsWhitespace(s[i + |t| + 2]))
    case Escaped(q, e, t) =>
      IsQuote(q) && i < |s| && s[i] == q && Spells(s, i + 1, e, 0) && QuotedStringToken.EscapedFrom(e, 0, t, 0, |e|)
      && i + |e| + 1 < |s| && s[i + |e| + 1] == q && (i + |e| + 2 < |s| ==> IsWhitespace(s[i + |e| + 2]))
    case Open(q, t) =>
      IsQuote(q) && i < |s| && s[i] == q && Spells(s, i + 1, t, 0) && PlainRun(t, 0, |t|, q) && i + |t| + 1 == |s|
  }

  /** From position `i` on, `s` is cut into the pieces from the `k`-th on. */
  predicate LaidOut(s: string, i: nat, ps: seq<Piece>, k: nat)
    decreases |ps| - k
  {
    if k >= |ps| then i == |s|
    else PieceAt(s, i, ps[k]) && LaidOut(s, i + Width(ps[k]), ps, k + 1)
  }

  /** A piece at `i`: reading from `i` yields its token, then what follows it. */
  lemma PieceThen(s: string, i: nat, p: Piece)
    requires PieceAt(s, i, p)
    ensures i + Width(p) <= |s| && TokensFrom(s, i) == TokenOf(p) + TokensFrom(s, i + Width(p))
  {
    if p.Blank? {
      BlankPieceThen(s, i, p);
    } else if p.Bare? {
      BarePieceThen(s, i, p);
    } else if p.Whole? {
      WholePieceThen(s, i, p);
    } else if p.Fraction? {
      FractionPieceThen(s, i, p);
    } else if p.Quoted? {
      QuotedPieceThen(s, i, p);
    } else if p.Escaped? {
      EscapedPieceThen(s, i, p);
    } else if p.Open? {
      OpenPieceThen(s, i, p);
    }
  }

  // One lemma per kind of piece, so that each proof sees only its own case.

  lemma BlankPieceThen(s: string, i: nat, p: Piece)
    requires p.Blank? && PieceAt(s, i, p)
    ensures i + Width(p) <= |s| && TokensFrom(s, i) == TokenOf(p) + TokensFrom(s, i + Width(p))
  {
    SpacesPiece(s, i, p.w);
    var rest := TokensFrom(s, i + |p.w|);
    assert TokensFrom(s, i) == rest;
  }

  lemma BarePieceThen(s: string, i: nat, p: Piece)
    requires p.Bare? && PieceAt(s, i, p)
    ensures i + Width(p) <= |s| && TokensFrom(s, i) == TokenOf(p) + TokensFrom(s, i + Width(p))
  {
    WordPiece(s, i, p.w);
    var rest := TokensFrom(s, i + |p.w|);
    assert TokensFrom(s, i) == [p.w] + rest;
  }

  lemma WholePieceThen(s: string, i: nat, p: Piece)
    requires p.Whole? && PieceAt(s, i, p)
    ensures i + Width(p) <= |s| && TokensFrom(s, i) == TokenOf(p) + TokensFrom(s, i + Width(p))
  {
    IntegerPiece(s, i, p.w);
    var rest := TokensFrom(s, i + |p.w|);
    assert TokensFrom(s, i) == [p.w] + rest;
  }

  lemma FractionPieceThen(s: string, i: nat, p: Piece)
    requires p.Fraction? && PieceAt(s, i, p)
    ensures i + Width(p) <= |s| && TokensFrom(s, i) == TokenOf(p) + TokensFrom(s, i + Width(p))
  {
    DecimalPiece(s, i, p.w, p.dot);
    var rest := TokensFrom(s, i + |p.w|);
    assert TokensFrom(s, i) == [p.w] + rest;
  }

  lemma QuotedPieceThen(s: string, i: nat, p: Piece)
    requires p.Quoted? && PieceAt(s, i, p)
    ensures i + Width(p) <= |s| && TokensFrom(s, i) == TokenOf(p) + TokensFrom(s, i + Width(p))
  {
    QuotedPlainPiece(s, i, p.q, p.t);
    var rest := TokensFrom(s, i + |p.t| + 2);
    assert TokensFrom(s, i) == [p.t] + rest;
  }

  lemma EscapedPieceThen(s: string, i: nat, p: Piece)
    requires p.Escaped? && PieceAt(s, i, p)
    ensures i + Width(p) <= |s| && TokensFrom(s, i) == TokenOf(p) + TokensFrom(s, i + Width(p))
  {
    EscapedPiece(s, i, p.q, p.e, p.t);
    var rest := TokensFrom(s, i + |p.e| + 2);
    assert TokensFrom(s, i) == [p.t] + rest;
  }

  lemma OpenPieceThen(s: string, i: nat, p: Piece)
    requires p.Open? && PieceAt(s, i, p)
    ensures i + Width(p) <= |s| && TokensFrom(s, i) == TokenOf(p) + TokensFrom(s, i + Width(p))
  {
    UnclosedPiece(s, i, p.q, p.t);
    assert i + Width(p) == |s| && TokensFrom(s, |s|) == [];
  }

  /** Reading an input cut into pieces yields the tokens the pieces stand for. */
  lemma {:induction false} TokensOfPieces(s: string, i: nat, ps: seq<Piece>, k: nat)
    requires i <= |s| && LaidOut(s, i, ps, k)
    ensures TokensFrom(s, i) == TokensOf(ps, k)
    decreases |ps| - k
  {
    if k < |ps| {
      PieceThen(s, i, ps[k]);
      TokensOfPieces(s, i + Width(ps[k]), ps, k + 1);
    }
  }

  lemma TokenizePieces(s: string, ps: seq<Piece>)
    requires LaidOut(s, 0, ps, 0)
    ensures Tokenize(s) == TokensOf(ps, 0)
  {
    TokensOfPieces(s, 0, ps, 0);
  }

  // The cases of the console parsing test. Each input is written as the texts of its pieces,
  // one after the other. `<Case>At<i>` places the piece that starts at position `i`,
  // `<Case>Pieces` lays out the whole input, and `<Case>Tokens` is the expectation of the test.

  /** The input of `testSimpleCommand`, "say hello", and its pieces. */
  const SimpleCommandInput: string := "say" + " " + "hello"
  const SimpleCommandLayout: seq<Piece> := [Bare("say"), Blank(" "), Bare("hello")]

  lemma SimpleCommandAt0()
    ensures PieceAt(SimpleCommandInput, 0, Bare("say"))
  {
    assert WordRun("say", 0, 3);
  }

  lemma SimpleCommandAt3()
    ensures PieceAt(SimpleCommandInput, 3, Blank(" "))
  {
    assert SpaceRun(" ", 0, 1);
  }

  lemma SimpleCommandAt4()
    ensures PieceAt(SimpleCommandInput, 4, Bare("hello"))
  {
    assert WordRun("hello", 0, 5);
  }

  lemma SimpleCommandPieces()
    ensures LaidOut(SimpleCommandInput, 0, SimpleCommandLayout, 0)
    ensures TokensOf(SimpleCommandLayout, 0) == ["say", "hello"]
  {
    SimpleCommandAt0();
    SimpleCommandAt3();
    SimpleCommandAt4();
  }

  /** `testSimpleCommand`: the tokens of "say hello" are ["say", "hello"]. */
  lemma SimpleCommandTokens()
    ensures Tokenize(SimpleCommandInput) == ["say", "hello"]
  {
    SimpleCommandPieces();
    TokenizePieces(SimpleCommandInput, SimpleCommandLayout);
  }

  /** The input of `testQuotedString`, "say \"hello world\"", and its pieces. */
  const QuotedStringInput: string := "say" + " " + "\"" + "hello world" + "\""
  const QuotedStringLayout: seq<Piece> := [Bare("say"), Blank(" "), Quoted('"', "hello world")]

  lemma QuotedStringAt0()
    ensures PieceAt(QuotedStringInput, 0, Bare("say"))
  {
    assert WordRun("say", 0, 3);
  }

  lemma QuotedStringAt3()
    ensures PieceAt(QuotedStringInput, 3, Blank(" "))
  {
    assert SpaceRun(" ", 0, 1);
  }

  lemma QuotedStringBody5()
    ensures Spells(QuotedStringInput, 5, "hello world", 0)
  {
    assert Spells(QuotedStringInput, 5, "hello world", 9);
    assert Spells(QuotedStringInput, 5, "hello world", 6);
    assert Spells(QuotedStringInput, 5, "hello world", 3);
  }

  lemma QuotedStringAt4()
    ensures PieceAt(QuotedStringInput, 4, Quoted('"', "hello world"))
  {
    QuotedStringBody5();
    assert PlainRun("hello world", 0, 11, '"');
  }

  lemma QuotedStringPieces()
    ensures LaidOut(QuotedStringInput, 0, QuotedStringLayout, 0)
    ensures TokensOf(QuotedStringLayout, 0) == ["say", "hello world"]
  {
    QuotedStringAt0();
    QuotedStringAt3();
    QuotedStringAt4();
  }

  /** `testQuotedString`: the tokens of "say \"hello world\"" are ["say", "hello world"]. */
  lemma QuotedStringTokens()
    ensures Tokenize(QuotedStringInput) == ["say", "hello world"]
  {
    QuotedStringPieces();
    TokenizePieces(QuotedStringInput, QuotedStringLayout);
  }

  /** The input of `testSingleQuotes`, "say 'hello world'", and its pieces. */
  const SingleQuotesInput: string := "say" + " " + "'" + "hello world" + "'"
  const SingleQuotesLayout: seq<Piece> := [Bare("say"), Blank(" "), Quoted('\'', "hello world")]

  lemma SingleQuotesAt0()
    ensures PieceAt(SingleQuotesInput, 0, Bare("say"))
  {
    assert WordRun("say", 0, 3);
  }

  lemma SingleQuotesAt3()
    ensures PieceAt(SingleQuotesInput, 3, Blank(" "))
  {
    assert SpaceRun(" ", 0, 1);
  }

  lemma SingleQuotesBody5()
    ensures Spells(SingleQuotesInput, 5, "hello world", 0)
  {
    assert Spells(SingleQuotesInput, 5, "hello world", 9);
    assert Spells(SingleQuotesInput, 5, "hello world", 6);
    assert Spells(SingleQuotesInput, 5, "hello world", 3);
  }

  lemma SingleQuotesAt4()
    ensures PieceAt(SingleQuotesInput, 4, Quoted('\'', "hello world"))
  {
    SingleQuotesBody5();
    assert PlainRun("hello world", 0, 11, '\'');
  }

  lemma SingleQuotesPieces()
    ensures LaidOut(SingleQuotesInput, 0, SingleQuotesLayout, 0)
    ensures TokensOf(SingleQuotesLayout, 0) == ["say", "hello world"]
  {
    SingleQuotesAt0();
    SingleQuotesAt3();
    SingleQuotesAt4();
  }

  /** `testSingleQuotes`: the tokens of "say 'hello world'" are ["say", "hello world"]. */
  lemma SingleQuotesTokens()
    ensures Tokenize(SingleQuotesInput) == ["say", "hello world"]
  {
    SingleQuotesPieces();
    TokenizePieces(SingleQuotesInput, SingleQuotesLayout);
  }

  /** The input of `testEscapeCharacters`, "say \"hello\\nworld\"", and its pieces. */
  const EscapeCharactersInput: string := "say" + " " + "\"" + "hello\\nworld" + "\""
  const EscapeCharactersLayout: seq<Piece> := [Bare("say"), Blank(" "), Escaped('"', "hello\\nworld", "hello\nworld")]

  lemma EscapeCharactersAt0()
    ensures PieceAt(EscapeCharactersInput, 0, Bare("say"))
  {
    assert WordRun("say", 0, 3);
  }

  lemma EscapeCharactersAt3()
    ensures PieceAt(EscapeCharactersInput, 3, Blank(" "))
  {
    assert SpaceRun(" ", 0, 1);
  }

  lemma EscapeCharactersBody5()
    ensures Spells(EscapeCharactersInput, 5, "hello\\nworld", 0)
  {
    assert Spells(EscapeCharactersInput, 5, "hello\\nworld", 9);
    assert Spells(EscapeCharactersInput, 5, "hello\\nworld", 6);
    assert Spells(EscapeCharactersInput, 5, "hello\\nworld", 3);
  }

  lemma EscapeCharactersAt4()
    ensures PieceAt(EscapeCharactersInput, 4, Escaped('"', "hello\\nworld", "hello\nworld"))
  {
    EscapeCharactersBody5();
    assert '\n' in QuotedStringToken.EscapedChars && QuotedStringToken.EscapedChars['\n'] == 'n';
    assert QuotedStringToken.EscapedFrom("hello\\nworld", 11, "hello\nworld", 10, 12);
    assert QuotedStringToken.EscapedFrom("hello\\nworld", 9, "hello\nworld", 8, 12);
    assert QuotedStringToken.EscapedFrom("hello\\nworld", 7, "hello\nworld", 6, 12);
    assert QuotedStringToken.EscapedFrom("hello\\nworld", 5, "hello\nworld", 5, 12);
    assert QuotedStringToken.EscapedFrom("hello\\nworld", 4, "hello\nworld", 4, 12);
    assert QuotedStringToken.EscapedFrom("hello\\nworld", 2, "hello\nworld", 2, 12);
    assert QuotedStringToken.EscapedFrom("hello\\nworld", 0, "hello\nworld", 0, 12);
  }

  lemma EscapeCharactersPieces()
    ensures LaidOut(EscapeCharactersInput, 0, EscapeCharactersLayout, 0)
    ensures TokensOf(EscapeCharactersLayout, 0) == ["say", "hello\nworld"]
  {
    EscapeCharactersAt0();
    EscapeCharactersAt3();
    EscapeCharactersAt4();
  }

  /** `testEscapeCharacters`: the tokens of "say \"hello\\nworld\"" are ["say", "hello\nworld"]. */
  lemma EscapeCharactersTokens()
    ensures Tokenize(EscapeCharactersInput) == ["say", "hello\nworld"]
  {
    EscapeCharactersPieces();
    TokenizePieces(EscapeCharactersInput, EscapeCharactersLayout);
  }

  /** The input of `testEscapedQuotes`, "say \"say \\\"hi\\\"\"", and its pieces. */
  const EscapedQuotesInput: string := "say" + " " + "\"" + "say \\\"hi\\\"" + "\""
  const EscapedQuotesLayout: seq<Piece> := [Bare("say"), Blank(" "), Escaped('"', "say \\\"hi\\\"", "say \"hi\"")]

  lemma EscapedQuotesAt0()
    ensures PieceAt(EscapedQuotesInput, 0, Bare("say"))
  {
    assert WordRun("say", 0, 3);
  }

  lemma EscapedQuotesAt3()
    ensures PieceAt(EscapedQuotesInput, 3, Blank(" "))
  {
    assert SpaceRun(" ", 0, 1);
  }

  lemma EscapedQuotesBody5()
    ensures Spells(EscapedQuotesInput, 5, "say \\\"hi\\\"", 0)
  {
    assert Spells(EscapedQuotesInput, 5, "say \\\"hi\\\"", 9);
    assert Spells(EscapedQuotesInput, 5, "say \\\"hi\\\"", 6);
    assert Spells(EscapedQuotesInput, 5, "say \\\"hi\\\"", 3);
  }

  lemma EscapedQuotesAt4()
    ensures PieceAt(EscapedQuotesInput, 4, Escaped('"', "say \\\"hi\\\"", "say \"hi\""))
  {
    EscapedQuotesBody5();
    assert '"' in QuotedStringToken.EscapedChars && QuotedStringToken.EscapedChars['"'] == '"';
    assert QuotedStringToken.EscapedFrom("say \\\"hi\\\"", 8, "say \"hi\"", 7, 10);
    assert QuotedStringToken.EscapedFrom("say \\\"hi\\\"", 7, "say \"hi\"", 6, 10);
    assert QuotedStringToken.EscapedFrom("say \\\"hi\\\"", 6, "say \"hi\"", 5, 10);
    assert QuotedStringToken.EscapedFrom("say \\\"hi\\\"", 4, "say \"hi\"", 4, 10);
    assert QuotedStringToken.EscapedFrom("say \\\"hi\\\"", 2, "say \"hi\"", 2, 10);
    assert QuotedStringToken.EscapedFrom("say \\\"hi\\\"", 0, "say \"hi\"", 0, 10);
  }

  lemma EscapedQuotesPieces()
    ensures LaidOut(EscapedQuotesInput, 0, EscapedQuotesLayout, 0)
    ensures TokensOf(EscapedQuotesLayout, 0) == ["say", "say \"hi\""]
  {
    EscapedQuotesAt0();
    EscapedQuotesAt3();
    EscapedQuotesAt4();
  }

  /** `testEscapedQuotes`: the tokens of "say \"say \\\"hi\\\"\"" are ["say", "say \"hi\""]. */
  lemma EscapedQuotesTokens()
    ensures Tokenize(EscapedQuotesInput) == ["say", "say \"hi\""]
  {
    EscapedQuotesPieces();
    TokenizePieces(EscapedQuotesInput, EscapedQuotesLayout);
  }

  /** The input of `testNumbers`, "tp 10 20 30", and its pieces. */
  const NumbersInput: string := "tp" + " " + "10" + " " + "20" + " " + "30"
  const NumbersLayout: seq<Piece> := [Bare("tp"), Blank(" "), Whole("10"), Blank(" "), Whole("20"), Blank(" "), Whole("30")]

  lemma NumbersAt0()
    ensures PieceAt(NumbersInput, 0, Bare("tp"))
  {
    assert WordRun("tp", 0, 2);
  }

  lemma NumbersAt2()
    ensures PieceAt(NumbersInput, 2, Blank(" "))
  {
    assert SpaceRun(" ", 0, 1);
  }

  lemma NumbersAt3()
    ensures PieceAt(NumbersInput, 3, Whole("10"))
  {
    assert DigitsRun("10", 1, 2);
  }

  lemma NumbersAt5()
    ensures PieceAt(NumbersInput, 5, Blank(" "))
  {
    assert SpaceRun(" ", 0, 1);
  }

  lemma NumbersAt6()
    ensures PieceAt(NumbersInput, 6, Whole("20"))
  {
    assert DigitsRun("20", 1, 2);
  }

  lemma NumbersAt8()
    ensures PieceAt(NumbersInput, 8, Blank(" "))
  {
    assert SpaceRun(" ", 0, 1);
  }

  lemma NumbersAt9()
    ensures PieceAt(NumbersInput, 9, Whole("30"))
  {
    assert DigitsRun("30", 1, 2);
  }

  lemma NumbersPieces()
    ensures LaidOut(NumbersInput, 0, NumbersLayout, 0)
    ensures TokensOf(NumbersLayout, 0) == ["tp", "10", "20", "30"]
  {
    NumbersAt0();
    NumbersAt2();
    NumbersAt3();
    NumbersAt5();
    NumbersAt6();
    NumbersAt8();
    NumbersAt9();
  }

  /** `testNumbers`: the tokens of "tp 10 20 30" are ["tp", "10", "20", "30"]. */
  lemma NumbersTokens()
    ensures Tokenize(NumbersInput) == ["tp", "10", "20", "30"]
  {
    NumbersPieces();
    TokenizePieces(NumbersInput, NumbersLayout);
  }

  /** The input of `testNegativeNumbers`, "tp -5 10 -15", and its pieces. */
  const NegativeNumbersInput: string := "tp" + " " + "-5" + " " + "10" + " " + "-15"
  const NegativeNumbersLayout: seq<Piece> := [Bare("tp"), Blank(" "), Whole("-5"), Blank(" "), Whole("10"), Blank(" "), Whole("-15")]

  lemma NegativeNumbersAt0()
    ensures PieceAt(NegativeNumbersInput, 0, Bare("tp"))
  {
    assert WordRun("tp", 0, 2);
  }

  lemma NegativeNumbersAt2()
    ensures PieceAt(NegativeNumbersInput, 2, Blank(" "))
  {
    assert SpaceRun(" ", 0, 1);
  }

  lemma NegativeNumbersAt3()
    ensures PieceAt(NegativeNumbersInput, 3, Whole("-5"))
  {
    assert DigitsRun("-5", 1, 2);
  }

  lemma NegativeNumbersAt5()
    ensures PieceAt(NegativeNumbersInput, 5, Blank(" "))
  {
    assert SpaceRun(" ", 0, 1);
  }

  lemma NegativeNumbersAt6()
    ensures PieceAt(NegativeNumbersInput, 6, Whole("10"))
  {
    assert DigitsRun("10", 1, 2);
  }

  lemma NegativeNumbersAt8()
    ensures PieceAt(NegativeNumbersInput, 8, Blank(" "))
  {
    assert SpaceRun(" ", 0, 1);
  }

  lemma NegativeNumbersAt9()
    ensures PieceAt(NegativeNumbersInput, 9, Whole("-15"))
  {
    assert DigitsRun("-15", 1, 3);
  }

  lemma NegativeNumbersPieces()
    ensures LaidOut(NegativeNumbersInput, 0, NegativeNumbersLayout, 0)
    ensures TokensOf(NegativeNumbersLayout, 0) == ["tp", "-5", "10", "-15"]
  {
    NegativeNumbersAt0();
    NegativeNumbersAt2();
    NegativeNumbersAt3();
    NegativeNumbersAt5();
    NegativeNumbersAt6();
    NegativeNumbersAt8();
    NegativeNumbersAt9();
  }

  /** `testNegativeNumbers`: the tokens of "tp -5 10 -15" are ["tp", "-5", "10", "-15"]. */
  lemma NegativeNumbersTokens()
    ensures Tokenize(NegativeNumbersInput) == ["tp", "-5", "10", "-15"]
  {
    NegativeNumbersPieces();
    TokenizePieces(NegativeNumbersInput, NegativeNumbersLayout);
  }

  /** The input of `testFloats`, "tp 10.5 20.75 30.0", and its pieces. */
  const FloatsInput: string := "tp" + " " + "10.5" + " " + "20.75" + " " + "30.0"
  const FloatsLayout: seq<Piece> := [Bare("tp"), Blank(" "), Fraction("10.5", 2), Blank(" "), Fraction("20.75", 2), Blank(" "), Fraction("30.0", 2)]

  lemma FloatsAt0()
    ensures PieceAt(FloatsInput, 0, Bare("tp"))
  {
    assert WordRun("tp", 0, 2);
  }

  lemma FloatsAt2()
    ensures PieceAt(FloatsInput, 2, Blank(" "))
  {
    assert SpaceRun(" ", 0, 1);
  }

  lemma FloatsAt3()
    ensures PieceAt(FloatsInput, 3, Fraction("10.5", 2))
  {
    assert DigitsRun("10.5", 3, 4);
  }

  lemma FloatsAt7()
    ensures PieceAt(FloatsInput, 7, Blank(" "))
  {
    assert SpaceRun(" ", 0, 1);
  }

  lemma FloatsAt8()
    ensures PieceAt(FloatsInput, 8, Fraction("20.75", 2))
  {
    assert DigitsRun("20.75", 3, 5);
  }

  lemma FloatsAt13()
    ensures PieceAt(FloatsInput, 13, Blank(" "))
  {
    assert SpaceRun(" ", 0, 1);
  }

  lemma FloatsAt14()
    ensures PieceAt(FloatsInput, 14, Fraction("30.0", 2))
  {
    assert DigitsRun("30.0", 3, 4);
  }

  lemma FloatsPieces()
    ensures LaidOut(FloatsInput, 0, FloatsLayout, 0)
    ensures TokensOf(FloatsLayout, 0) == ["tp", "10.5", "20.75", "30.0"]
  {
    FloatsAt0();
    FloatsAt2();
    FloatsAt3();
    FloatsAt7();
    FloatsAt8();
    FloatsAt13();
    FloatsAt14();
  }

  /** `testFloats`: the tokens of "tp 10.5 20.75 30.0" are ["tp", "10.5", "20.75", "30.0"]. */
  lemma FloatsTokens()
    ensures Tokenize(FloatsInput) == ["tp", "10.5", "20.75", "30.0"]
  {
    FloatsPieces();
    TokenizePieces(FloatsInput, FloatsLayout);
  }

  /** The input of `testMixedTokens`, "give @player stone 64", and its pieces. */
  const MixedTokensInput: string := "give" + " " + "@player" + " " + "stone" + " " + "64"
  const MixedTokensLayout: seq<Piece> := [Bare("give"), Blank(" "), Bare("@player"), Blank(" "), Bare("stone"), Blank(" "), Whole("64")]

  lemma MixedTokensAt0()
    ensures PieceAt(MixedTokensInput, 0, Bare("give"))
  {
    assert WordRun("give", 0, 4);
  }

  lemma MixedTokensAt4()
    ensures PieceAt(MixedTokensInput, 4, Blank(" "))
  {
    assert SpaceRun(" ", 0, 1);
  }

  lemma MixedTokensAt5()
    ensures PieceAt(MixedTokensInput, 5, Bare("@player"))
  {
    assert WordRun("@player", 0, 7);
  }

  lemma MixedTokensAt12()
    ensures PieceAt(MixedTokensInput, 12, Blank(" "))
  {
    assert SpaceRun(" ", 0, 1);
  }

  lemma MixedTokensAt13()
    ensures PieceAt(MixedTokensInput, 13, Bare("stone"))
  {
    assert WordRun("stone", 0, 5);
  }

  lemma MixedTokensAt18()
    ensures PieceAt(MixedTokensInput, 18, Blank(" "))
  {
    assert SpaceRun(" ", 0, 1);
  }

  lemma MixedTokensAt19()
    ensures PieceAt(MixedTokensInput, 19, Whole("64"))
  {
    assert DigitsRun("64", 1, 2);
  }

  lemma MixedTokensPieces()
    ensures LaidOut(MixedTokensInput, 0, MixedTokensLayout, 0)
    ensures TokensOf(MixedTokensLayout, 0) == ["give", "@player", "stone", "64"]
  {
    MixedTokensAt0();
    MixedTokensAt4();
    MixedTokensAt5();
    MixedTokensAt12();
    MixedTokensAt13();
    MixedTokensAt18();
    MixedTokensAt19();
  }

  /** `testMixedTokens`: the tokens of "give @player stone 64" are ["give", "@player", "stone", "64"]. */
  lemma MixedTokensTokens()
    ensures Tokenize(MixedTokensInput) == ["give", "@player", "stone", "64"]
  {
    MixedTokensPieces();
    TokenizePieces(MixedTokensInput, MixedTokensLayout);
  }

  /** The input of `testMultipleSpaces`, "say    hello    world", and its pieces. */
  const MultipleSpacesInput: string := "say" + "    " + "hello" + "    " + "world"
  const MultipleSpacesLayout: seq<Piece> := [Bare("say"), Blank("    "), Bare("hello"), Blank("    "), Bare("world")]

  lemma MultipleSpacesAt0()
    ensures PieceAt(MultipleSpacesInput, 0, Bare("say"))
  {
    assert WordRun("say", 0, 3);
  }

  lemma MultipleSpacesAt3()
    ensures PieceAt(MultipleSpacesInput, 3, Blank("    "))
  {
    assert SpaceRun("    ", 0, 4);
  }

  lemma MultipleSpacesAt7()
    ensures PieceAt(MultipleSpacesInput, 7, Bare("hello"))
  {
    assert WordRun("hello", 0, 5);
  }

  lemma MultipleSpacesAt12()
    ensures PieceAt(MultipleSpacesInput, 12, Blank("    "))
  {
    assert SpaceRun("    ", 0, 4);
  }

  lemma MultipleSpacesAt16()
    ensures PieceAt(MultipleSpacesInput, 16, Bare("world"))
  {
    assert WordRun("world", 0, 5);
  }

  lemma MultipleSpacesPieces()
    ensures LaidOut(MultipleSpacesInput, 0, MultipleSpacesLayout, 0)
    ensures TokensOf(MultipleSpacesLayout, 0) == ["say", "hello", "world"]
  {
    MultipleSpacesAt0();
    MultipleSpacesAt3();
    MultipleSpacesAt7();
    MultipleSpacesAt12();
    MultipleSpacesAt16();
  }

  /** `testMultipleSpaces`: the tokens of "say    hello    world" are ["say", "hello", "world"]. */
  lemma MultipleSpacesTokens()
    ensures Tokenize(MultipleSpacesInput) == ["say", "hello", "world"]
  {
    MultipleSpacesPieces();
    TokenizePieces(MultipleSpacesInput, MultipleSpacesLayout);
  }

  /** The input of `testLeadingTrailingSpaces`, "  say hello  ", and its pieces. */
  const LeadingTrailingSpacesInput: string := "  " + "say" + " " + "hello" + "  "
  const LeadingTrailingSpacesLayout: seq<Piece> := [Blank("  "), Bare("say"), Blank(" "), Bare("hello"), Blank("  ")]

  lemma LeadingTrailingSpacesAt0()
    ensures PieceAt(LeadingTrailingSpacesInput, 0, Blank("  "))
  {
    assert SpaceRun("  ", 0, 2);
  }

  lemma LeadingTrailingSpacesAt2()
    ensures PieceAt(LeadingTrailingSpacesInput, 2, Bare("say"))
  {
    assert WordRun("say", 0, 3);
  }

  lemma LeadingTrailingSpacesAt5()
    ensures PieceAt(LeadingTrailingSpacesInput, 5, Blank(" "))
  {
    assert SpaceRun(" ", 0, 1);
  }

  lemma LeadingTrailingSpacesAt6()
    ensures PieceAt(LeadingTrailingSpacesInput, 6, Bare("hello"))
  {
    assert WordRun("hello", 0, 5);
  }

  lemma LeadingTrailingSpacesAt11()
    ensures PieceAt(LeadingTrailingSpacesInput, 11, Blank("  "))
  {
    assert SpaceRun("  ", 0, 2);
  }

  lemma LeadingTrailingSpacesPieces()
    ensures LaidOut(LeadingTrailingSpacesInput, 0, LeadingTrailingSpacesLayout, 0)
    ensures TokensOf(LeadingTrailingSpacesLayout, 0) == ["say", "hello"]
  {
    LeadingTrailingSpacesAt0();
    LeadingTrailingSpacesAt2();
    LeadingTrailingSpacesAt5();
    LeadingTrailingSpacesAt6();
    LeadingTrailingSpacesAt11();
  }

  /** `testLeadingTrailingSpaces`: the tokens of "  say hello  " are ["say", "hello"]. */
  lemma LeadingTrailingSpacesTokens()
    ensures Tokenize(LeadingTrailingSpacesInput) == ["say", "hello"]
  {
    LeadingTrailingSpacesPieces();
    TokenizePieces(LeadingTrailingSpacesInput, LeadingTrailingSpacesLayout);
  }

  /** The input of `testEmptyString`, "", and its pieces. */
  const EmptyStringInput: string := ""
  const EmptyStringLayout: seq<Piece> := []

  lemma EmptyStringPieces()
    ensures LaidOut(EmptyStringInput, 0, EmptyStringLayout, 0)
    ensures TokensOf(EmptyStringLayout, 0) == []
  {
  }

  /** `testEmptyString`: the tokens of "" are []. */
  lemma EmptyStringTokens()
    ensures Tokenize(EmptyStringInput) == []
  {
    EmptyStringPieces();
    TokenizePieces(EmptyStringInput, EmptyStringLayout);
  }

  /** The input of `testOnlySpaces`, "     ", and its pieces. */
  const OnlySpacesInput: string := "     "
  const OnlySpacesLayout: seq<Piece> := [Blank("     ")]

  lemma OnlySpacesAt0()
    ensures PieceAt(OnlySpacesInput, 0, Blank("     "))
  {
    assert SpaceRun("     ", 0, 5);
  }

  lemma OnlySpacesPieces()
    ensures LaidOut(OnlySpacesInput, 0, OnlySpacesLayout, 0)
    ensures TokensOf(OnlySpacesLayout, 0) == []
  {
    OnlySpacesAt0();
  }

  /** `testOnlySpaces`: the tokens of "     " are []. */
  lemma OnlySpacesTokens()
    ensures Tokenize(OnlySpacesInput) == []
  {
    OnlySpacesPieces();
    TokenizePieces(OnlySpacesInput, OnlySpacesLayout);
  }

  /** The input of `testComplexCommand`, "say \"Testing 123\" @player -10.5 'quoted'", and its pieces. */
  const ComplexCommandInput: string := "say" + " " + "\"" + "Testing 123" + "\"" + " " + "@player" + " " + "-10.5" + " " + "'" + "quoted" + "'"
  const ComplexCommandLayout: seq<Piece> := [Bare("say"), Blank(" "), Quoted('"', "Testing 123"), Blank(" "), Bare("@player"), Blank(" "), Fraction("-10.5", 3), Blank(" "), Quoted('\'', "quoted")]

  lemma ComplexCommandAt0()
    ensures PieceAt(ComplexCommandInput, 0, Bare("say"))
  {
    assert WordRun("say", 0, 3);
  }

  lemma ComplexCommandAt3()
    ensures PieceAt(ComplexCommandInput, 3, Blank(" "))
  {
    assert SpaceRun(" ", 0, 1);
  }

  lemma ComplexCommandBody5()
    ensures Spells(ComplexCommandInput, 5, "Testing 123", 0)
  {
    assert Spells(ComplexCommandInput, 5, "Testing 123", 9);
    assert Spells(ComplexCommandInput, 5, "Testing 123", 6);
    assert Spells(ComplexCommandInput, 5, "Testing 123", 3);
  }

  lemma ComplexCommandAt4()
    ensures PieceAt(ComplexCommandInput, 4, Quoted('"', "Testing 123"))
  {
    ComplexCommandBody5();
    assert PlainRun("Testing 123", 0, 11, '"');
  }

  lemma ComplexCommandAt17()
    ensures PieceAt(ComplexCommandInput, 17, Blank(" "))
  {
    assert SpaceRun(" ", 0, 1);
  }

  lemma ComplexCommandAt18()
    ensures PieceAt(ComplexCommandInput, 18, Bare("@player"))
  {
    assert WordRun("@player", 0, 7);
  }

  lemma ComplexCommandAt25()
    ensures PieceAt(ComplexCommandInput, 25, Blank(" "))
  {
    assert SpaceRun(" ", 0, 1);
  }

  lemma ComplexCommandAt26()
    ensures PieceAt(ComplexCommandInput, 26, Fraction("-10.5", 3))
  {
    assert DigitsRun("-10.5", 4, 5);
  }

  lemma ComplexCommandAt31()
    ensures PieceAt(ComplexCommandInput, 31, Blank(" "))
  {
    assert SpaceRun(" ", 0, 1);
  }

  lemma ComplexCommandBody33()
    ensures Spells(ComplexCommandInput, 33, "quoted", 0)
  {
  }

  lemma ComplexCommandAt32()
    ensures PieceAt(ComplexCommandInput, 32, Quoted('\'', "quoted"))
  {
    ComplexCommandBody33();
    assert PlainRun("quoted", 0, 6, '\'');
  }

  lemma ComplexCommandPieces()
    ensures LaidOut(ComplexCommandInput, 0, ComplexCommandLayout, 0)
    ensures TokensOf(ComplexCommandLayout, 0) == ["say", "Testing 123", "@player", "-10.5", "quoted"]
  {
    ComplexCommandAt0();
    ComplexCommandAt3();
    ComplexCommandAt4();
    ComplexCommandAt17();
    ComplexCommandAt18();
    ComplexCommandAt25();
    ComplexCommandAt26();
    ComplexCommandAt31();
    ComplexCommandAt32();
  }

  /** `testComplexCommand`: the tokens of "say \"Testing 123\" @player -10.5 'quoted'" are ["say", "Testing 123", "@player", "-10.5", "quoted"]. */
  lemma ComplexCommandTokens()
    ensures Tokenize(ComplexCommandInput) == ["say", "Testing 123", "@player", "-10.5", "quoted"]
  {
    ComplexCommandPieces();
    TokenizePieces(ComplexCommandInput, ComplexCommandLayout);
  }

  /** The input of `testUnclosedQuote`, "say \"hello", and its pieces. */
  const UnclosedQuoteInput: string := "say" + " " + "\"" + "hello"
  const UnclosedQuoteLayout: seq<Piece> := [Bare("say"), Blank(" "), Open('"', "hello")]

  lemma UnclosedQuoteAt0()
    ensures PieceAt(UnclosedQuoteInput, 0, Bare("say"))
  {
    assert WordRun("say", 0, 3);
  }

  lemma UnclosedQuoteAt3()
    ensures PieceAt(UnclosedQuoteInput, 3, Blank(" "))
  {
    assert SpaceRun(" ", 0, 1);
  }

  lemma UnclosedQuoteBody5()
    ensures Spells(UnclosedQuoteInput, 5, "hello", 0)
  {
  }

  lemma UnclosedQuoteAt4()
    ensures PieceAt(UnclosedQuoteInput, 4, Open('"', "hello"))
  {
    UnclosedQuoteBody5();
    assert PlainRun("hello", 0, 5, '"');
  }

  lemma UnclosedQuotePieces()
    ensures LaidOut(UnclosedQuoteInput, 0, UnclosedQuoteLayout, 0)
    ensures TokensOf(UnclosedQuoteLayout, 0) == ["say", "hello"]
  {
    UnclosedQuoteAt0();
    UnclosedQuoteAt3();
    UnclosedQuoteAt4();
  }

  /** `testUnclosedQuote`: the tokens of "say \"hello" are ["say", "hello"]. */
  lemma UnclosedQuoteTokens()
    ensures Tokenize(UnclosedQuoteInput) == ["say", "hello"]
  {
    UnclosedQuotePieces();
    TokenizePieces(UnclosedQuoteInput, UnclosedQuoteLayout);
  }

  /** The input of `testSpecialCharacters`, "give @player diamond_sword 1", and its pieces. */
  const SpecialCharactersInput: string := "give" + " " + "@player" + " " + "diamond_sword" + " " + "1"
  const SpecialCharactersLayout: seq<Piece> := [Bare("give"), Blank(" "), Bare("@player"), Blank(" "), Bare("diamond_sword"), Blank(" "), Whole("1")]

  lemma SpecialCharactersAt0()
    ensures PieceAt(SpecialCharactersInput, 0, Bare("give"))
  {
    assert WordRun("give", 0, 4);
  }

  lemma SpecialCharactersAt4()
    ensures PieceAt(SpecialCharactersInput, 4, Blank(" "))
  {
    assert SpaceRun(" ", 0, 1);
  }

  lemma SpecialCharactersAt5()
    ensures PieceAt(SpecialCharactersInput, 5, Bare("@player"))
  {
    assert WordRun("@player", 0, 7);
  }

  lemma SpecialCharactersAt12()
    ensures PieceAt(SpecialCharactersInput, 12, Blank(" "))
  {
    assert SpaceRun(" ", 0, 1);
  }

  lemma SpecialCharactersAt13()
    ensures PieceAt(SpecialCharactersInput, 13, Bare("diamond_sword"))
  {
    assert WordRun("diamond_sword", 0, 13);
  }

  lemma SpecialCharactersAt26()
    ensures PieceAt(SpecialCharactersInput, 26, Blank(" "))
  {
    assert SpaceRun(" ", 0, 1);
  }

  lemma SpecialCharactersAt27()
    ensures PieceAt(SpecialCharactersInput, 27, Whole("1"))
  {
    assert DigitsRun("1", 1, 1);
  }

  lemma SpecialCharactersPieces()
    ensures LaidOut(SpecialCharactersInput, 0, SpecialCharactersLayout, 0)
    ensures TokensOf(SpecialCharactersLayout, 0) == ["give", "@player", "diamond_sword", "1"]
  {
    SpecialCharactersAt0();
    SpecialCharactersAt4();
    SpecialCharactersAt5();
    SpecialCharactersAt12();
    SpecialCharactersAt13();
    SpecialCharactersAt26();
    SpecialCharactersAt27();
  }

  /** `testSpecialCharacters`: the tokens of "give @player diamond_sword 1" are ["give", "@player", "diamond_sword", "1"]. */
  lemma SpecialCharactersTokens()
    ensures Tokenize(SpecialCharactersInput) == ["give", "@player", "diamond_sword", "1"]
  {
    SpecialCharactersPieces();
    TokenizePieces(SpecialCharactersInput, SpecialCharactersLayout);
  }

  /** The input of `testTabsAndNewlines`, "say \"line1\\tline2\\nline3\"", and its pieces. */
  const TabsAndNewlinesInput: string := "say" + " " + "\"" + "line1\\tline2\\nline3" + "\""
  const TabsAndNewlinesLayout: seq<Piece> := [Bare("say"), Blank(" "), Escaped('"', "line1\\tline2\\nline3", "line1\tline2\nline3")]

  lemma TabsAndNewlinesAt0()
    ensures PieceAt(TabsAndNewlinesInput, 0, Bare("say"))
  {
    assert WordRun("say", 0, 3);
  }

  lemma TabsAndNewlinesAt3()
    ensures PieceAt(TabsAndNewlinesInput, 3, Blank(" "))
  {
    assert SpaceRun(" ", 0, 1);
  }

  lemma TabsAndNewlinesBody5()
    ensures Spells(TabsAndNewlinesInput, 5, "line1\\tline2\\nline3", 0)
  {
    assert Spells(TabsAndNewlinesInput, 5, "line1\\tline2\\nline3", 18);
    assert Spells(TabsAndNewlinesInput, 5, "line1\\tline2\\nline3", 15);
    assert Spells(TabsAndNewlinesInput, 5, "line1\\tline2\\nline3", 12);
    assert Spells(TabsAndNewlinesInput, 5, "line1\\tline2\\nline3", 9);
    assert Spells(TabsAndNewlinesInput, 5, "line1\\tline2\\nline3", 6);
    assert Spells(TabsAndNewlinesInput, 5, "line1\\tline2\\nline3", 3);
  }

  lemma TabsAndNewlinesAt4()
    ensures PieceAt(TabsAndNewlinesInput, 4, Escaped('"', "line1\\tline2\\nline3", "line1\tline2\nline3"))
  {
    TabsAndNewlinesBody5();
    assert '\t' in QuotedStringToken.EscapedChars && QuotedStringToken.EscapedChars['\t'] == 't';
    assert '\n' in QuotedStringToken.EscapedChars && QuotedStringToken.EscapedChars['\n'] == 'n';
    assert QuotedStringToken.EscapedFrom("line1\\tline2\\nline3", 18, "line1\tline2\nline3", 16, 19);
    assert QuotedStringToken.EscapedFrom("line1\\tline2\\nline3", 16, "line1\tline2\nline3", 14, 19);
    assert QuotedStringToken.EscapedFrom("line1\\tline2\\nline3", 14, "line1\tline2\nline3", 12, 19);
    assert QuotedStringToken.EscapedFrom("line1\\tline2\\nline3", 12, "line1\tline2\nline3", 11, 19);
    assert QuotedStringToken.EscapedFrom("line1\\tline2\\nline3", 11, "line1\tline2\nline3", 10, 19);
    assert QuotedStringToken.EscapedFrom("line1\\tline2\\nline3", 9, "line1\tline2\nline3", 8, 19);
    assert QuotedStringToken.EscapedFrom("line1\\tline2\\nline3", 7, "line1\tline2\nline3", 6, 19);
    assert QuotedStringToken.EscapedFrom("line1\\tline2\\nline3", 5, "line1\tline2\nline3", 5, 19);
    assert QuotedStringToken.EscapedFrom("line1\\tline2\\nline3", 4, "line1\tline2\nline3", 4, 19);
    assert QuotedStringToken.EscapedFrom("line1\\tline2\\nline3", 2, "line1\tline2\nline3", 2, 19);
    assert QuotedStringToken.EscapedFrom("line1\\tline2\\nline3", 0, "line1\tline2\nline3", 0, 19);
  }

  lemma TabsAndNewlinesPieces()
    ensures LaidOut(TabsAndNewlinesInput, 0, TabsAndNewlinesLayout, 0)
    ensures TokensOf(TabsAndNewlinesLayout, 0) == ["say", "line1\tline2\nline3"]
  {
    TabsAndNewlinesAt0();
    TabsAndNewlinesAt3();
    TabsAndNewlinesAt4();
  }

  /** `testTabsAndNewlines`: the tokens of "say \"line1\\tline2\\nline3\"" are ["say", "line1\tline2\nline3"]. */
  lemma TabsAndNewlinesTokens()
    ensures Tokenize(TabsAndNewlinesInput) == ["say", "line1\tline2\nline3"]
  {
    TabsAndNewlinesPieces();
    TokenizePieces(TabsAndNewlinesInput, TabsAndNewlinesLayout);
  }
}
