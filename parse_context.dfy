/**
 * The context of the command interpreter: the command line being parsed and the
 * position reached in it, with the character classes the token rules test.
 */
module ParseContext {
  import opened Wrappers
  import opened JavaStrings

  /** `Character.isWhitespace`: the Java whitespace controls and the Unicode
      space, line and paragraph separators other than the non-breaking ones. */
  predicate IsWhitespace(c: char) {
    c == ' ' || ('\t' <= c <= '\r') || ('\U{1C}' <= c <= '\U{1F}')
    || c == '\U{1680}' || ('\U{2000}' <= c <= '\U{2006}') || ('\U{2008}' <= c <= '\U{200A}')
    || c == '\U{2028}' || c == '\U{2029}' || c == '\U{205F}' || c == '\U{3000}'
  }

  /** `Character.isDigit`, restricted to the ASCII digits. */
  predicate IsDigit(c: char) {
    '0' <= c <= '9'
  }

  /** The two characters that open a quoted string. */
  predicate IsQuote(c: char) {
    c == '"' || c == '\''
  }

  /** The first position at or after `i` that does not hold whitespace. */
  function SkipWs(s: string, i: nat): (j: nat)
    requires i <= |s|
    ensures i <= j <= |s|
    ensures j < |s| ==> !IsWhitespace(s[j])
    decreases |s| - i
  {
    if i < |s| && IsWhitespace(s[i]) then SkipWs(s, i + 1) else i
  }

  /** Everything `SkipWs` passes over is whitespace. */
  lemma {:induction false} SkippedAreWhitespace(s: string, i: nat)
    requires i <= |s|
    ensures forall k :: i <= k < SkipWs(s, i) ==> IsWhitespace(s[k])
    decreases |s| - i
  {
    if i < |s| && IsWhitespace(s[i]) {
      SkippedAreWhitespace(s, i + 1);
    }
  }

  class ParseContext {
    const input: string
    var position: int

    ghost predicate Valid()
      reads this
    {
      0 <= position <= |input|
    }

    constructor (input: string)
      ensures Valid()
      ensures this.input == input && position == 0
    {
      this.input := input;
      position := 0;
    }

    /** Moves to position `p`, refusing one outside the input. */
    method SetPosition(p: int) returns (r: Result<()>)
      requires Valid()
      modifies this
      ensures Valid()
      ensures 0 <= p <= |input| ==> r.Ok? && position == p
      ensures !(0 <= p <= |input|) ==>
        r == Err(IllegalArgument("Position out of bounds: " + IntToString(p))) && position == old(position)
    {
      if p < 0 || p > |input| {
        return Err(IllegalArgument("Position out of bounds: " + IntToString(p)));
      }
      position := p;
      r := Ok(());
    }

    predicate HasMore()
      reads this
    {
      position < |input|
    }

    /** The character at the position, or the error thrown at the end of the input. */
    function Peek(): (r: Result<char>)
      reads this
      requires Valid()
      ensures r.Ok? <==> HasMore()
      ensures r.Ok? ==> r.value == input[position]
      ensures r.Err? ==> r.error == IllegalState("No more characters to peek")
    {
      if !HasMore() then Err(IllegalState("No more characters to peek")) else Ok(input[position])
    }

    /** The character `offset` places after the position, if that is inside the input. */
    function PeekAt(offset: int): (r: Result<char>)
      reads this
      requires Valid()
      ensures r.Ok? <==> 0 <= position + offset < |input|
      ensures r.Ok? ==> r.value == input[position + offset]
      ensures r.Err? ==> r.error == IllegalArgument("Peek offset out of bounds: " + IntToString(offset))
    {
      var p := position + offset;
      if p < 0 || p >= |input| then Err(IllegalArgument("Peek offset out of bounds: " + IntToString(offset)))
      else Ok(input[p])
    }

    /** Returns the character `Peek` shows and moves past it; fails, without moving, at the end. */
    method Consume() returns (r: Result<char>)
      requires Valid()
      modifies this
      ensures Valid()
      ensures r.Ok? <==> old(HasMore())
      ensures r.Ok? ==> r.value == input[old(position)] && position == old(position) + 1
      ensures r.Err? ==> r.error == IllegalState("No more characters to consume") && position == old(position)
    {
      if !HasMore() {
        return Err(IllegalState("No more characters to consume"));
      }
      r := Ok(input[position]);
      position := position + 1;
    }

    /** Moves past the whitespace at the position. */
    method SkipWhitespace()
      requires Valid()
      modifies this
      ensures Valid()
      ensures position == SkipWs(input, old(position))
    {
      while HasMore() && IsWhitespace(Peek().value)
        invariant old(position) <= position <= |input|
        invariant SkipWs(input, position) == SkipWs(input, old(position))
        decreases |input| - position
      {
        position := position + 1;
      }
    }

    /** The input not yet parsed. */
    function Remaining(): (r: string)
      reads this
      requires Valid()
      ensures input == input[..position] + r
    {
      input[position..]
    }

    /** Whether the input not yet parsed begins with `prefix`. */
    predicate StartsWith(prefix: string)
      reads this
      requires Valid()
      ensures StartsWith(prefix) <==>
        position + |prefix| <= |input| && input[position..position + |prefix|] == prefix
    {
      prefix <= Remaining()
    }
  }
}
