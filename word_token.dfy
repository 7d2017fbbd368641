/**
 * The word rule of the command interpreter: a run of characters up to the next
 * whitespace or quote.
 */
module WordToken {
  import opened Wrappers
  import opened ParseContext

  /** A character that ends a word. */
  predicate IsWordStop(c: char) {
    IsWhitespace(c) || IsQuote(c)
  }

  /** The rule applies at any character that does not end a word. */
  predicate MatchesAt(s: string, i: int) {
    0 <= i < |s| && !IsWordStop(s[i])
  }

  /** The first position at or after `i` holding whitespace or a quote, or the end of the input. */
  function End(s: string, i: nat): (j: nat)
    requires i <= |s|
    ensures i <= j <= |s|
    ensures j < |s| ==> IsWordStop(s[j])
    decreases |s| - i
  {
    if i < |s| && !IsWordStop(s[i]) then End(s, i + 1) else i
  }

  /** Nothing `End` passes over ends a word. */
  lemma {:induction false} EndPassesNoStop(s: string, i: nat)
    requires i <= |s|
    ensures forall k :: i <= k < End(s, i) ==> !IsWordStop(s[k])
    decreases |s| - i
  {
    if i < |s| && !IsWordStop(s[i]) {
      EndPassesNoStop(s, i + 1);
    }
  }

  /** The token read by the rule at `i`, and the position after it. */
  function Token(s: string, i: nat): (r: (string, nat))
    requires MatchesAt(s, i)
    ensures i < r.1 <= |s| && r.0 == s[i..r.1]
  {
    var j := End(s, i);
    (s[i..j], j)
  }

  /** `matches(context)` */
  predicate Matches(ctx: ParseContext)
    reads ctx
  {
    MatchesAt(ctx.input, ctx.position)
  }

  /** `interpret(context)`: no token (and no move) where the rule does not apply. */
  method Interpret(ctx: ParseContext) returns (r: Option<string>)
    requires ctx.Valid()
    modifies ctx
    ensures ctx.Valid()
    ensures !MatchesAt(ctx.input, old(ctx.position)) ==> r == None && ctx.position == old(ctx.position)
    ensures MatchesAt(ctx.input, old(ctx.position)) ==>
      var t := Token(ctx.input, old(ctx.position));
      r == Some(t.0) && ctx.position == t.1
  {
    if !Matches(ctx) {
      return None;
    }
    ghost var start := ctx.position;
    var word := "";
    while ctx.HasMore()
      invariant ctx.Valid() && start <= ctx.position
      invariant End(ctx.input, ctx.position) == End(ctx.input, start)
      invariant word == ctx.input[start..ctx.position]
      decreases |ctx.input| - ctx.position
    {
      var ch := ctx.Peek().value;
      if IsWhitespace(ch) || ch == '"' || ch == '\'' {
        break;
      }
      var c := ctx.Consume();
      word := word + [c.value];
    }
    r := if |word| > 0 then Some(word) else None;
  }

  /** A word holds no whitespace and no quote, and it is never empty. */
  lemma WordHasNoStops(s: string, i: nat)
    requires MatchesAt(s, i)
    ensures |Token(s, i).0| > 0
    ensures forall c :: c in Token(s, i).0 ==> !IsWordStop(c)
  {
    var j := End(s, i);
    EndPassesNoStop(s, i);
    forall c | c in s[i..j]
      ensures !IsWordStop(c)
    {
      var k :| 0 <= k < j - i && s[i..j][k] == c;
      assert s[i + k] == c;
    }
  }
}
