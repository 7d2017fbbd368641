/**
 * The number rule of the command interpreter: an optional minus sign, a run of digits
 * and, when a digit follows a dot, the dot and a second run of digits.
 */
module NumberToken {
  import opened Wrappers
  import opened ParseContext

  /** The rule applies at a digit, or at a minus sign with a digit right after it. */
  predicate MatchesAt(s: string, i: int) {
    0 <= i < |s| &&
    if s[i] == '-' && i + 1 < |s| then IsDigit(s[i + 1]) else IsDigit(s[i])
  }

  /** The end of the run of digits starting at `i`. */
  function DigitRun(s: string, i: nat): (j: nat)
    requires i <= |s|
    ensures i <= j <= |s|
    ensures j < |s| ==> !IsDigit(s[j])
    decreases |s| - i
  {
    if i < |s| && IsDigit(s[i]) then DigitRun(s, i + 1) else i
  }

  /** Everything `DigitRun` passes over is a digit. */
  lemma {:induction false} DigitRunIsDigits(s: string, i: nat)
    requires i <= |s|
    ensures forall k :: i <= k < DigitRun(s, i) ==> IsDigit(s[k])
    decreases |s| - i
  {
    if i < |s| && IsDigit(s[i]) {
      DigitRunIsDigits(s, i + 1);
    }
  }

  /** Where the integer part read from `i` ends. */
  function IntegerEnd(s: string, i: nat): (j: nat)
    requires MatchesAt(s, i)
    ensures i < j <= |s|
  {
    DigitRun(s, if s[i] == '-' then i + 1 else i)
  }

  /** Whether a fraction follows an integer part ending at `j`. */
  predicate HasFraction(s: string, j: nat) {
    j + 1 < |s| && s[j] == '.' && IsDigit(s[j + 1])
  }

  /** Where the number read from `i` ends. */
  function End(s: string, i: nat): (j: nat)
    requires MatchesAt(s, i)
    ensures i < j <= |s|
    ensures j < |s| ==> !IsDigit(s[j])
  {
    var b := IntegerEnd(s, i);
    if HasFraction(s, b) then DigitRun(s, b + 1) else b
  }

  /** The token read by the rule at `i`, a copy of the characters it passes, and the position after it. */
  function Token(s: string, i: nat): (r: (string, nat))
    requires MatchesAt(s, i)
    ensures i < r.1 <= |s| && r.0 == s[i..r.1]
  {
    var j := End(s, i);
    (s[i..j], j)
  }

  /** `matches(context)` */
  predicate Matches(ctx: ParseContext)
    reads ctx
  {
    MatchesAt(ctx.input, ctx.position)
  }

  /** Appends the run of digits at the position, moving past it. */
  method ReadDigits(ctx: ParseContext) returns (digits: string)
    requires ctx.Valid()
    modifies ctx
    ensures ctx.Valid()
    ensures ctx.position == DigitRun(ctx.input, old(ctx.position))
    ensures digits == ctx.input[old(ctx.position)..ctx.position]
  {
    digits := "";
    ghost var start := ctx.position;
    while ctx.HasMore() && IsDigit(ctx.Peek().value)
      invariant ctx.Valid() && start <= ctx.position
      invariant DigitRun(ctx.input, ctx.position) == DigitRun(ctx.input, start)
      invariant digits == ctx.input[start..ctx.position]
      decreases |ctx.input| - ctx.position
    {
      var c := ctx.Consume();
      digits := digits + [c.value];
    }
  }

  /** The optional sign and the integer part. */
  method ReadInteger(ctx: ParseContext) returns (number: string)
    requires ctx.Valid() && MatchesAt(ctx.input, ctx.position)
    modifies ctx
    ensures ctx.Valid()
    ensures ctx.position == IntegerEnd(ctx.input, old(ctx.position))
    ensures number == ctx.input[old(ctx.position)..ctx.position]
  {
    number := "";
    if ctx.Peek().value == '-' {
      var c := ctx.Consume();
      number := number + [c.value];
    }
    var digits := ReadDigits(ctx);
    number := number + digits;
  }

  /** The fraction, when a dot with a digit after it follows the integer part. */
  method ReadFraction(ctx: ParseContext) returns (fraction: string)
    requires ctx.Valid()
    modifies ctx
    ensures ctx.Valid()
    ensures ctx.position == (if HasFraction(ctx.input, old(ctx.position))
      then DigitRun(ctx.input, old(ctx.position) + 1) else old(ctx.position))
    ensures fraction == ctx.input[old(ctx.position)..ctx.position]
  {
    fraction := "";
    if ctx.HasMore() && ctx.Peek().value == '.' {
      if ctx.position + 1 < |ctx.input| && IsDigit(ctx.PeekAt(1).value) {
        var dot := ctx.Consume();
        var digits := ReadDigits(ctx);
        fraction := [dot.value] + digits;
      }
    }
  }

  /** `interpret(context)`: no token (and no move) where the rule does not apply. */
  method Interpret(ctx: ParseContext) returns (r: Option<string>)
    requires ctx.Valid()
    modifies ctx
    ensures ctx.Valid()
    ensures !MatchesAt(ctx.input, old(ctx.position)) ==> r == None && ctx.position == old(ctx.position)
    ensures MatchesAt(ctx.input, old(ctx.position)) ==>
      var t := Token(ctx.input, old(ctx.position));
      r == Some(t.0) && ctx.position == t.1
  {
    if !Matches(ctx) {
      return None;
    }
    ghost var start := ctx.position;
    var number := ReadInteger(ctx);
    ghost var middle := ctx.position;
    var fraction := ReadFraction(ctx);
    number := number + fraction;
    assert number == ctx.input[start..ctx.position] by {
      assert ctx.input[start..middle] + ctx.input[middle..ctx.position] == ctx.input[start..ctx.position];
    }
    r := if |number| > 0 then Some(number) else None;
  }

  /** One or more digits. */
  predicate Digits(t: string) {
    |t| >= 1 && forall k :: 0 <= k < |t| ==> IsDigit(t[k])
  }

  /** An unsigned number: `digit+ ('.' digit+)?`. */
  predicate IsUnsignedNumber(u: string) {
    Digits(u) || exists k :: 0 < k < |u| && u[k] == '.' && Digits(u[..k]) && Digits(u[k + 1..])
  }

  /** The grammar `'-'? digit+ ('.' digit+)?` of the rule. */
  predicate IsNumberLiteral(t: string) {
    IsUnsignedNumber(t) || (|t| > 0 && t[0] == '-' && IsUnsignedNumber(t[1..]))
  }

  lemma DigitsSlice(s: string, a: nat, b: nat)
    requires a < b <= |s|
    requires forall k :: a <= k < b ==> IsDigit(s[k])
    ensures Digits(s[a..b])
  {
  }

  lemma FractionSlice(s: string, a: nat, b: nat, e: nat)
    requires a < b && b + 1 < e <= |s| && s[b] == '.'
    requires forall k :: a <= k < b ==> IsDigit(s[k])
    requires forall k :: b + 1 <= k < e ==> IsDigit(s[k])
    ensures IsUnsignedNumber(s[a..e])
  {
    var u := s[a..e];
    var k := b - a;
    assert u[..k] == s[a..b];
    assert u[k + 1..] == s[b + 1..e];
    DigitsSlice(s, a, b);
    DigitsSlice(s, b + 1, e);
    assert u[k] == '.';
  }

  /** Every token the rule reads is a number literal of its grammar. */
  lemma TokenIsNumberLiteral(s: string, i: nat)
    requires MatchesAt(s, i)
    ensures IsNumberLiteral(Token(s, i).0)
  {
    var e := End(s, i);
    var a := if s[i] == '-' then i + 1 else i;
    var b := DigitRun(s, a);
    assert b == IntegerEnd(s, i);
    assert a < b;
    DigitRunIsDigits(s, a);
    if HasFraction(s, b) {
      assert e == DigitRun(s, b + 1);
      DigitRunIsDigits(s, b + 1);
      FractionSlice(s, a, b, e);
    } else {
      DigitsSlice(s, a, b);
    }
    if s[i] == '-' {
      assert s[i..e][1..] == s[a..e];
    }
  }
}
