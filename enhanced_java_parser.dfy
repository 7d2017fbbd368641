/**
 * The text-level helpers of the Java source parser that feeds the diagram generator:
 * comment removal, the extraction of a class body between matching braces, the split of a
 * parameter list, the cleaning of a type name and the visibility given by modifiers.
 */
module EnhancedJavaParser {
  import opened Wrappers
  import opened JavaStrings
  import opened PyStrings

  // ---------------------------------------------------------------------------------------
  // remove_comments, line comments

  /** What the line scan of `remove_comments` tracks: inside a string literal, inside a char literal, after a backslash. */
  datatype Literals = Literals(inString: bool, inChar: bool, escape: bool)

  const OUTSIDE: Literals := Literals(false, false, false)

  /** How a character that does not start a comment moves the tracking. */
  function Track(st: Literals, c: char): Literals {
    if st.escape then st.(escape := false)
    else if c == '\\' then st.(escape := true)
    else if !st.inChar && c == '"' then st.(inString := !st.inString)
    else if !st.inString && c == '\'' then st.(inChar := !st.inChar)
    else st
  }

  /** The tracking state on reaching position `i` of a line. */
  function StateAt(line: string, i: nat): Literals
    requires i <= |line|
  {
    if i == 0 then OUTSIDE else Track(StateAt(line, i - 1), line[i - 1])
  }

  /** A "//" at position `i` that the scan, in state `st`, takes as the start of a comment. */
  predicate CommentAt(line: string, i: nat, st: Literals) {
    !st.escape && !st.inString && !st.inChar && i + 1 < |line| && line[i] == '/' && line[i + 1] == '/'
  }

  /** Where the scan from position `i` in state `st` cuts the line: at a comment start, or at the end. */
  function CutFrom(line: string, i: nat, st: Literals): (k: nat)
    requires i <= |line|
    ensures i <= k <= |line|
    ensures k < |line| ==> k + 1 < |line| && line[k] == '/' && line[k + 1] == '/'
    decreases |line| - i
  {
    if i == |line| then |line|
    else if CommentAt(line, i, st) then i
    else CutFrom(line, i + 1, Track(st, line[i]))
  }

  /** Where `remove_comments` cuts a line. */
  function CommentStart(line: string): (k: nat)
    ensures k <= |line|
  {
    CutFrom(line, 0, OUTSIDE)
  }

  lemma {:induction false} CutFromIsFirst(line: string, i: nat)
    requires i <= |line|
    ensures var k := CutFrom(line, i, StateAt(line, i));
      && (k < |line| ==> CommentAt(line, k, StateAt(line, k)))
      && (forall j :: i <= j < k ==> !CommentAt(line, j, StateAt(line, j)))
    decreases |line| - i
  {
    if i < |line| && !CommentAt(line, i, StateAt(line, i)) {
      assert StateAt(line, i + 1) == Track(StateAt(line, i), line[i]);
      CutFromIsFirst(line, i + 1);
    }
  }

  /**
   * The cut is at the first "//" that lies outside every string and char literal and is not
   * escaped; a line with no such "//" is kept whole.
   */
  lemma CommentStartIsFirst(line: string)
    ensures var k := CommentStart(line);
      && (k < |line| ==> CommentAt(line, k, StateAt(line, k)))
      && (forall j :: 0 <= j < k ==> !CommentAt(line, j, StateAt(line, j)))
  {
    CutFromIsFirst(line, 0);
  }

  /** A backslash outside an escape makes the scan ignore the character after it. */
  lemma EscapedCharIgnored(st: Literals, c: char)
    requires !st.escape
    ensures Track(Track(st, '\\'), c) == st
  {
  }

  /** Inside a string literal a "//" is not a comment, whatever follows it. */
  lemma NoCommentInString(line: string, i: nat)
    requires i <= |line| && StateAt(line, i).inString
    ensures !CommentAt(line, i, StateAt(line, i))
  {
  }

  /** The loop of `remove_comments` over one line. */
  method CutLine(line: string) returns (r: string)
    ensures r == line[..CommentStart(line)]
  {
    var inString, inChar, escape := false, false, false;
    var i := 0;
    while i < |line|
      invariant i <= |line|
      invariant CutFrom(line, i, Literals(inString, inChar, escape)) == CommentStart(line)
    {
      var c := line[i];
      if escape {
        escape := false;
      } else if c == '\\' {
        escape := true;
      } else if !inChar && c == '"' {
        inString := !inString;
      } else if !inString && c == '\'' {
        inChar := !inChar;
      } else if !inString && !inChar && c == '/' && i + 1 < |line| && line[i + 1] == '/' {
        return line[..i];
      }
      i := i + 1;
    }
    r := line;
  }

  /** Every line cut at its comment. */
  function CutLines(lines: seq<string>): (r: seq<string>)
    ensures |r| == |lines|
    ensures forall k :: 0 <= k < |r| ==> r[k] == lines[k][..CommentStart(lines[k])]
  {
    seq(|lines|, k requires 0 <= k < |lines| => lines[k][..CommentStart(lines[k])])
  }

  /** The line-comment pass over a whole text. */
  function LineCommentsRemoved(content: string): string {
    JoinOn(CutLines(SplitOn(content, '\n')), '\n')
  }

  /** The line-comment pass keeps the lines: the same number of them, each a prefix of the original line. */
  lemma LinesKept(content: string)
    ensures SplitOn(LineCommentsRemoved(content), '\n') == CutLines(SplitOn(content, '\n'))
  {
    var cut := CutLines(SplitOn(content, '\n'));
    forall k | 0 <= k < |cut|
      ensures '\n' !in cut[k]
    {
      var line := SplitOn(content, '\n')[k];
      assert cut[k] == line[..CommentStart(line)];
    }
    JoinSplit(cut, '\n');
  }

  // ---------------------------------------------------------------------------------------
  // remove_comments, block comments

  /** The first "*" "/" pair at or after position `k`. */
  function CloseFrom(s: string, k: nat): (r: Option<nat>)
    ensures r.Some? ==> k <= r.value && r.value + 1 < |s| && s[r.value] == '*' && s[r.value + 1] == '/'
    decreases |s| - k
  {
    if k + 1 >= |s| then None
    else if s[k] == '*' && s[k + 1] == '/' then Some(k)
    else CloseFrom(s, k + 1)
  }

  lemma {:induction false} CloseFromFirst(s: string, k: nat, j: nat)
    requires k <= j && j + 1 < |s| && s[j] == '*' && s[j + 1] == '/'
    requires forall m :: k <= m < j ==> !(s[m] == '*' && s[m + 1] == '/')
    ensures CloseFrom(s, k) == Some(j)
    decreases j - k
  {
    if k < j {
      CloseFromFirst(s, k + 1, j);
    }
  }

  /**
   * The substitution of the non-greedy block-comment pattern, matching across lines: from
   * left to right, each "/" "*" with a later "*" "/" is removed through the first such close.
   * An opening with no close is kept.
   */
  function BlockCommentsRemoved(s: string): (r: string)
    ensures |r| <= |s|
    decreases |s|
  {
    if s == [] then []
    else if "/*" <= s && CloseFrom(s, 2).Some? then BlockCommentsRemoved(s[CloseFrom(s, 2).value + 2..])
    else [s[0]] + BlockCommentsRemoved(s[1..])
  }

  /** A text with no comment opening is kept as it is. */
  lemma {:induction false} NoBlockCommentKept(s: string)
    requires !Contains(s, "/*")
    ensures BlockCommentsRemoved(s) == s
    decreases |s|
  {
    if s != [] {
      assert !("/*" <= s);
      assert !Contains(s[1..], "/*");
      NoBlockCommentKept(s[1..]);
    }
  }

  /** A block comment around `b`, followed by `c`. */
  function Commented(b: string, c: string): string {
    "/*" + b + "*/" + c
  }

  /** A comment whose text holds no close is removed, and the text before it is kept. */
  lemma {:induction false} BlockCommentRemoved(a: string, b: string, c: string)
    requires !Contains(a, "/*") && !Contains(b, "*/")
    ensures BlockCommentsRemoved(a + Commented(b, c)) == a + BlockCommentsRemoved(c)
    decreases |a|
  {
    if a == [] {
      assert a + Commented(b, c) == Commented(b, c);
      LeadingCommentRemoved(b, c);
    } else {
      NoOpenAtFront(a, Commented(b, c));
      BlockCommentRemoved(a[1..], b, c);
      BlockCommentKeepsFirst(a, Commented(b, c), BlockCommentsRemoved(c));
    }
  }

  /** A first character that opens no comment is kept, and the removal goes on after it. */
  lemma BlockCommentKeepsFirst(a: string, rest: string, removed: string)
    requires a != [] && !("/*" <= a + rest)
    requires BlockCommentsRemoved(a[1..] + rest) == a[1..] + removed
    ensures BlockCommentsRemoved(a + rest) == a + removed
  {
    TailOfAppend(a, rest);
    ConcatAssoc([a[0]], a[1..], removed);
    assert [a[0]] + a[1..] == a;
  }

  /** A text that starts with a comment opening, no close inside, loses the comment. */
  lemma LeadingCommentRemoved(b: string, c: string)
    requires !Contains(b, "*/")
    ensures BlockCommentsRemoved(Commented(b, c)) == BlockCommentsRemoved(c)
  {
    var s := Commented(b, c);
    forall m | 2 <= m < 2 + |b|
      ensures !(s[m] == '*' && s[m + 1] == '/')
    {
      if m + 1 < 2 + |b| {
        NotContainsAt(b, "*/", m - 2);
        assert s[m..m + 2] == b[m - 2..m];
      } else {
        assert s[m + 1] == '*';
      }
    }
    CloseFromFirst(s, 2, 2 + |b|);
    assert s[2 + |b| + 2..] == c;
  }

  /** A text `a + rest` with a non-empty `a` holding no comment opening, and `rest` a comment, does not start with one. */
  lemma NoOpenAtFront(a: string, rest: string)
    requires !Contains(a, "/*") && a != [] && rest != [] && rest[0] == '/'
    ensures !("/*" <= a + rest)
    ensures !Contains(a[1..], "/*")
  {
    var s := a + rest;
    if |a| >= 2 {
      NotContainsAt(a, "/*", 0);
      assert s[..2] == a[..2];
    } else {
      assert s[1] == '/';
    }
  }

  /** `remove_comments`: each line cut at its comment, then the block comments removed. */
  method RemoveComments(content: string) returns (r: string)
    ensures r == BlockCommentsRemoved(LineCommentsRemoved(content))
  {
    var lines := SplitOn(content, '\n');
    var resultLines: seq<string> := [];
    for k := 0 to |lines|
      invariant resultLines == CutLines(lines[..k])
    {
      var line := CutLine(lines[k]);
      resultLines := resultLines + [line];
    }
    assert lines[..|lines|] == lines;
    r := BlockCommentsRemoved(JoinOn(resultLines, '\n'));
  }

  // ---------------------------------------------------------------------------------------
  // extract_class_body

  /** The first '{' at or after position `i`; a result past the last character means there is none. */
  function OpenFrom(content: string, i: nat): (k: nat)
    ensures k >= i
    ensures k < |content| ==> content[k] == '{'
    ensures forall j :: i <= j < k && j < |content| ==> content[j] != '{'
    decreases |content| - i
  {
    if i >= |content| || content[i] == '{' then i else OpenFrom(content, i + 1)
  }

  /** What a character does to the count of open braces. */
  function BraceDelta(c: char): int {
    if c == '{' then 1 else if c == '}' then -1 else 0
  }

  /** The number of '{' less the number of '}' in a text. */
  function BraceNet(s: string): int {
    if s == [] then 0 else BraceNet(s[..|s| - 1]) + BraceDelta(s[|s| - 1])
  }

  /** The matching scan from position `i` with `count` braces open: where it stops, and the count there. */
  function MatchFrom(content: string, i: nat, count: int): (r: (nat, int))
    requires i <= |content|
    ensures i <= r.0 <= |content|
    decreases |content| - i
  {
    if i == |content| || count <= 0 then (i, count)
    else MatchFrom(content, i + 1, count + BraceDelta(content[i]))
  }

  /**
   * `extract_class_body`: the text after the first '{' at or after `start`, up to the '}'
   * that closes it, or to the end when none does; "" when there is no '{'.
   */
  function ClassBody(content: string, start: nat): string {
    var open := OpenFrom(content, start);
    if open >= |content| then "" else BodyFrom(content, open + 1)
  }

  /** The body after a '{' that ends just before `base`: up to the '}' that closes it, or to the end. */
  function BodyFrom(content: string, base: nat): string
    requires base <= |content|
  {
    var m := MatchFrom(content, base, 1);
    if m.1 == 0 && m.0 > base then content[base..m.0 - 1] else content[base..]
  }

  lemma {:induction false} MatchFromCounts(content: string, base: nat, i: nat, count: int)
    requires base <= i <= |content|
    requires count >= 0 && count == 1 + BraceNet(content[base..i])
    requires forall k :: base <= k < i ==> 1 + BraceNet(content[base..k]) > 0
    ensures var r := MatchFrom(content, i, count);
      && r.1 >= 0 && r.1 == 1 + BraceNet(content[base..r.0])
      && (r.1 == 0 || r.0 == |content|)
      && (forall k :: base <= k < r.0 ==> 1 + BraceNet(content[base..k]) > 0)
    decreases |content| - i
  {
    if i < |content| && count > 0 {
      assert content[base..i + 1][..i - base] == content[base..i];
      MatchFromCounts(content, base, i + 1, count + BraceDelta(content[i]));
    }
  }

  /** No prefix of `body` closes more braces than it opens. */
  predicate NeverUnderflows(body: string) {
    forall k :: 0 <= k <= |body| ==> BraceNet(body[..k]) >= 0
  }

  /**
   * The body never closes more braces than it opens. When it stops before the end, it holds
   * as many '{' as '}' and is followed by the '}' that closes the class.
   */
  lemma BodyBalanced(content: string, start: nat)
    ensures OpenFrom(content, start) >= |content| ==> ClassBody(content, start) == ""
    ensures var open := OpenFrom(content, start); var body := ClassBody(content, start);
      open < |content| ==>
        && NeverUnderflows(body)
        && (open + 1 + |body| < |content| ==>
              BraceNet(body) == 0 && content[open + 1 + |body|] == '}')
  {
    var open := OpenFrom(content, start);
    if open < |content| {
      BodyFromBalanced(content, open + 1);
    }
  }

  /** The body from `base` never closes more braces than it opens, and a '}' closes it when it stops early. */
  lemma BodyFromBalanced(content: string, base: nat)
    requires base <= |content|
    ensures var body := BodyFrom(content, base);
      && NeverUnderflows(body)
      && (base + |body| < |content| ==> BraceNet(body) == 0 && content[base + |body|] == '}')
  {
    assert content[base..base] == [];
    MatchFromCounts(content, base, base, 1);
    var m := MatchFrom(content, base, 1);
    var body := BodyFrom(content, base);
    if m.1 == 0 && m.0 > base {
      assert body == content[base..m.0 - 1];
      ClosingBrace(content, base, m.0);
      assert base + |body| == m.0 - 1;
      PrefixesNonNegative(content, base, body);
    } else {
      assert m.0 == base ==> m.1 == 1;
      assert body == content[base..] && m.0 == |content|;
      assert base + |body| == |content|;
      PrefixesNonNegative(content, base, body);
    }
  }

  /** Where the count first drops to 0, the text before holds as many '{' as '}' and a '}' follows it. */
  lemma ClosingBrace(content: string, base: nat, stop: nat)
    requires base < stop <= |content|
    requires 1 + BraceNet(content[base..stop]) == 0 && 1 + BraceNet(content[base..stop - 1]) > 0
    ensures BraceNet(content[base..stop - 1]) == 0 && content[stop - 1] == '}'
  {
    assert content[base..stop][..stop - 1 - base] == content[base..stop - 1];
  }

  /** A body whose every prefix leaves the class brace open never closes more braces than it opens. */
  lemma PrefixesNonNegative(content: string, base: nat, body: string)
    requires base + |body| <= |content| && body == content[base..base + |body|]
    requires forall k :: base <= k <= base + |body| ==> 1 + BraceNet(content[base..k]) > 0
    ensures NeverUnderflows(body)
  {
    forall k | 0 <= k <= |body|
      ensures BraceNet(body[..k]) >= 0
    {
      assert body[..k] == content[base..base + k];
    }
  }

  /** The two loops of `extract_class_body`. */
  method ExtractClassBody(content: string, start: nat) returns (body: string)
    ensures body == ClassBody(content, start)
  {
    var i := start;
    while i < |content| && content[i] != '{'
      invariant i >= start
      invariant OpenFrom(content, i) == OpenFrom(content, start)
      decreases |content| - i
    {
      i := i + 1;
    }
    if i >= |content| {
      return "";
    }
    var count := 1;
    i := i + 1;
    var bodyStart := i;
    while i < |content| && count > 0
      invariant bodyStart <= i <= |content|
      invariant MatchFrom(content, i, count) == MatchFrom(content, bodyStart, 1)
    {
      var c := content[i];
      if c == '{' {
        count := count + 1;
      } else if c == '}' {
        count := count - 1;
      }
      i := i + 1;
    }
    body := if count == 0 && i > bodyStart then content[bodyStart..i - 1] else content[bodyStart..];
  }

  // ---------------------------------------------------------------------------------------
  // parse_parameters

  /** What a character does to the nesting depth of the parameter split: '(' and '<' open, ')' and '>' close. */
  function Delta(c: char): int {
    if c == '(' || c == '<' then 1 else if c == ')' || c == '>' then -1 else 0
  }

  /** The depth change over a text. */
  function Net(s: string): int {
    if s == [] then 0 else Delta(s[0]) + Net(s[1..])
  }

  /** The stripped piece, when it is not blank. */
  function Emit(current: string): (r: seq<string>)
    ensures |r| <= 1
  {
    if Strip(current) != [] then [Strip(current)] else []
  }

  /** The pieces that are kept: the non-blank ones, stripped. */
  function Kept(raw: seq<string>): (r: seq<string>)
    ensures |r| <= |raw|
  {
    if raw == [] then [] else Emit(raw[0]) + Kept(raw[1..])
  }

  lemma {:induction false} KeptAppend(a: seq<string>, b: seq<string>)
    ensures Kept(a + b) == Kept(a) + Kept(b)
  {
    if a != [] {
      KeptAppend(a[1..], b);
      KeptAppendCons(a, b);
    } else {
      assert a + b == b;
    }
  }

  lemma KeptAppendCons(a: seq<string>, b: seq<string>)
    requires a != [] && Kept(a[1..] + b) == Kept(a[1..]) + Kept(b)
    ensures Kept(a + b) == Kept(a) + Kept(b)
  {
    TailOfAppend(a, b);
    KeptFirst(a);
    KeptFirst(a + b);
    ConcatAssoc(Emit(a[0]), Kept(a[1..]), Kept(b));
  }

  lemma KeptFirst(raw: seq<string>)
    requires raw != []
    ensures Kept(raw) == Emit(raw[0]) + Kept(raw[1..])
  {
  }

  /** The first element and the rest of `a + b`, for a non-empty `a`. */
  lemma TailOfAppend<T>(a: seq<T>, b: seq<T>)
    requires a != []
    ensures (a + b)[0] == a[0] && (a + b)[1..] == a[1..] + b
  {
  }

  lemma KeptCons(x: string, rest: seq<string>)
    ensures Kept([x] + rest) == Emit(x) + Kept(rest)
  {
    assert ([x] + rest)[0] == x && ([x] + rest)[1..] == rest;
  }

  /** When no piece is blank, all of them are kept. */
  lemma {:induction false} KeptAll(raw: seq<string>)
    requires forall k :: 0 <= k < |raw| ==> Strip(raw[k]) != []
    ensures Kept(raw) == StripAll(raw)
  {
    if raw != [] {
      KeptAll(raw[1..]);
    }
  }

  /** Each piece stripped. */
  function StripAll(pieces: seq<string>): (r: seq<string>)
    ensures |r| == |pieces|
    ensures forall k :: 0 <= k < |r| ==> r[k] == Strip(pieces[k])
  {
    if pieces == [] then [] else [Strip(pieces[0])] + StripAll(pieces[1..])
  }

  /**
   * The split loop from the rest `s` of the text, with the piece `current` begun at depth
   * `depth`: a ',' at depth 0 ends the piece, any other character joins it.
   */
  function Pieces(s: string, current: string, depth: int): (r: seq<string>)
    decreases |s|
  {
    if s == [] then []
    else if s[0] == ',' && depth == 0 then [current] + Pieces(s[1..], [], 0)
    else Pieces(s[1..], current + [s[0]], depth + Delta(s[0]))
  }

  /** The pieces of a parameter list: the loop runs over the text with a ',' added at its end. */
  function TopLevelPieces(params: string): seq<string> {
    Kept(Pieces(params + ",", [], 0))
  }

  /** A piece that holds a ',' only where it is nested, and closes all it opens. */
  predicate Nested(p: string) {
    Net(p) == 0 && CommasNested(p, 0)
  }

  /** Every ',' of `a` lies where the depth, counted from `depth`, is not 0. */
  predicate CommasNested(a: string, depth: int) {
    forall i :: 0 <= i < |a| && a[i] == ',' ==> depth + Net(a[..i]) != 0
  }

  /** A text whose commas are nested is taken into the current piece whole. */
  lemma {:induction false} PiecesAbsorb(a: string, rest: string, current: string, depth: int)
    requires CommasNested(a, depth)
    ensures Pieces(a + rest, current, depth) == Pieces(rest, current + a, depth + Net(a))
    decreases |a|
  {
    if a != [] {
      assert a[..0] == [];
      assert a[0] == ',' ==> depth != 0;
      assert (a + rest)[0] == a[0] && (a + rest)[1..] == a[1..] + rest;
      assert Pieces(a + rest, current, depth) == Pieces(a[1..] + rest, current + [a[0]], depth + Delta(a[0]));
      forall i | 0 <= i < |a[1..]| && a[1..][i] == ','
        ensures depth + Delta(a[0]) + Net(a[1..][..i]) != 0
      {
        assert a[..i + 1][1..] == a[1..][..i];
        assert a[i + 1] == ',';
      }
      PiecesAbsorb(a[1..], rest, current + [a[0]], depth + Delta(a[0]));
      assert current + [a[0]] + a[1..] == current + a;
      assert Net(a) == Delta(a[0]) + Net(a[1..]);
      assert Pieces(a[1..] + rest, current + [a[0]], depth + Delta(a[0])) == Pieces(rest, current + a, depth + Net(a));
    } else {
      assert a + rest == rest && current + a == current;
    }
  }

  /** The last piece of a list, with the ',' the loop adds after it. */
  lemma LastPiece(p: string)
    requires CommasNested(p, 0) && Net(p) == 0
    ensures Pieces(p + ",", [], 0) == [p]
  {
    PiecesAbsorb(p, ",", [], 0);
    assert [] + p == p;
    assert Pieces(",", p, 0) == [p] + Pieces([], [], 0);
  }

  /** A piece followed by ',' and the rest of the list. */
  lemma FirstPiece(p: string, rest: string)
    requires CommasNested(p, 0) && Net(p) == 0
    ensures Pieces(p + "," + rest, [], 0) == [p] + Pieces(rest, [], 0)
  {
    assert p + "," + rest == p + ([','] + rest);
    PiecesAbsorb(p, [','] + rest, [], 0);
    assert [] + p == p;
    assert ([','] + rest)[1..] == rest;
    assert Pieces([','] + rest, p, 0) == [p] + Pieces(rest, [], 0);
  }

  /** The loop cuts a list joined from nested pieces back into those pieces. */
  lemma {:induction false} PiecesOfJoin(pieces: seq<string>)
    requires |pieces| >= 1
    requires forall k :: 0 <= k < |pieces| ==> Nested(pieces[k])
    ensures Pieces(JoinOn(pieces, ',') + ",", [], 0) == pieces
  {
    if |pieces| == 1 {
      LastPiece(pieces[0]);
    } else {
      var rest := JoinOn(pieces[1..], ',');
      assert JoinOn(pieces, ',') + "," == pieces[0] + "," + (rest + ",");
      FirstPiece(pieces[0], rest + ",");
      PiecesOfJoin(pieces[1..]);
      assert [pieces[0]] + pieces[1..] == pieces;
    }
  }

  /**
   * The split is at the commas between pieces and nowhere else: pieces whose own commas are
   * nested come back, stripped, in order.
   */
  lemma SplitAtTopLevelCommas(pieces: seq<string>)
    requires |pieces| >= 1
    requires forall k :: 0 <= k < |pieces| ==> Nested(pieces[k]) && Strip(pieces[k]) != []
    ensures TopLevelPieces(JoinOn(pieces, ',')) == StripAll(pieces)
  {
    PiecesOfJoin(pieces);
    KeptAll(pieces);
  }

  /** The pieces of a list with no brackets are its comma-separated parts that are not blank, stripped. */
  lemma PlainListPieces(a: string, b: string)
    requires ',' !in a && Strip(a) != [] && Strip(b) != []
    requires forall i :: 0 <= i < |a| ==> Delta(a[i]) == 0
    requires forall i :: 0 <= i < |b| ==> Delta(b[i]) == 0 && b[i] != ','
    ensures TopLevelPieces(a + "," + b) == [Strip(a), Strip(b)]
  {
    NetZero(a);
    NetZero(b);
    assert Nested(a) by {
      assert a[..|a|] == a;
    }
    assert Nested(b) by {
      assert b[..|b|] == b;
    }
    var ps := [a, b];
    assert JoinOn(ps, ',') == a + "," + b;
    SplitAtTopLevelCommas(ps);
    assert StripAll(ps) == [Strip(a), Strip(b)];
  }

  lemma {:induction false} NetZero(s: string)
    requires forall i :: 0 <= i < |s| ==> Delta(s[i]) == 0
    ensures forall i :: 0 <= i <= |s| ==> Net(s[..i]) == 0
  {
    if s != [] {
      NetZero(s[1..]);
      forall i | 0 < i <= |s|
        ensures Net(s[..i]) == 0
      {
        assert s[..i][1..] == s[1..][..i - 1];
      }
      assert s[..0] == [];
    }
  }

  /** The split loop of `parse_parameters`. */
  method SplitParameters(params: string) returns (parts: seq<string>)
    ensures parts == TopLevelPieces(params)
  {
    var text := params + ",";
    parts := [];
    var current: string := [];
    var depth := 0;
    assert text[0..] == text;
    for i := 0 to |text|
      invariant parts + Kept(Pieces(text[i..], current, depth)) == TopLevelPieces(params)
    {
      assert text[i..] == [text[i]] + text[i + 1..];
      parts, current, depth := Feed(parts, current, depth, text[i], text[i + 1..]);
    }
  }

  /** One turn of the split loop, on the character `c` followed by the rest `rest` of the text. */
  method Feed(parts: seq<string>, current: string, depth: int, c: char, ghost rest: string)
    returns (parts': seq<string>, current': string, depth': int)
    ensures parts' + Kept(Pieces(rest, current', depth')) == parts + Kept(Pieces([c] + rest, current, depth))
  {
    assert ([c] + rest)[0] == c && ([c] + rest)[1..] == rest;
    if c == ',' && depth == 0 {
      var piece := Strip(current);
      SplitEnd(parts, current, Pieces(rest, [], 0));
      parts' := if piece != [] then parts + [piece] else parts;
      current', depth' := [], 0;
    } else {
      parts' := parts;
      if c == '(' || c == '<' {
        depth' := depth + 1;
      } else if c == ')' || c == '>' {
        depth' := depth - 1;
      } else {
        depth' := depth;
      }
      current' := current + [c];
    }
  }

  /** The end of a piece in the split loop: the stripped piece is kept when it is not blank. */
  lemma SplitEnd(parts: seq<string>, current: string, later: seq<string>)
    ensures parts + Kept([current] + later) ==
              (if Strip(current) != [] then parts + [Strip(current)] else parts) + Kept(later)
  {
    var raw := [current] + later;
    assert raw[0] == current && raw[1..] == later;
    assert Kept(raw) == Emit(current) + Kept(later);
    if Strip(current) != [] {
      assert parts + ([Strip(current)] + Kept(later)) == parts + [Strip(current)] + Kept(later);
    } else {
      assert Emit(current) + Kept(later) == Kept(later);
    }
  }

  /** A character of Python's `\w`, taken over ASCII. */
  predicate IsWordChar(c: char) {
    'a' <= c <= 'z' || 'A' <= c <= 'Z' || '0' <= c <= '9' || c == '_'
  }

  /** The length of the run of word characters at the front of `s`. */
  function WordCharRun(s: string): (n: nat)
    ensures n <= |s|
    decreases |s|
  {
    if s != [] && IsWordChar(s[0]) then 1 + WordCharRun(s[1..]) else 0
  }

  /** The substitution that removes annotations: an '@', its name and the whitespace after it. */
  function AnnotationsRemoved(s: string): (r: string)
    ensures |r| <= |s|
    ensures '@' !in s ==> r == s
    decreases |s|
  {
    if s == [] then []
    else if s[0] == '@' && |s| >= 2 && IsWordChar(s[1]) then
      var n := 1 + WordCharRun(s[1..]);
      AnnotationsRemoved(s[n + LeadSpace(s[n..])..])
    else [s[0]] + AnnotationsRemoved(s[1..])
  }

  /**
   * The substitution that removes `final`: the word at a word boundary followed by at least
   * one whitespace character, which goes with it. `afterWord` says whether the character
   * before `s` in the original text is a word character.
   */
  function FinalRemoved(s: string, afterWord: bool): (r: string)
    ensures |r| <= |s|
    decreases |s|
  {
    if s == [] then []
    else if !afterWord && "final" <= s && |s| > 5 && IsSpace(s[5]) then
      FinalRemoved(s[5 + LeadSpace(s[5..])..], false)
    else [s[0]] + FinalRemoved(s[1..], IsWordChar(s[0]))
  }

  /** A parameter of a method: its name and its cleaned type. */
  datatype Parameter = Parameter(name: string, typeName: string)

  /**
   * One piece of the list as a parameter: with annotations and `final` removed, two or more
   * words give the last word as the name and the words before it as the type; fewer give none.
   */
  function ParameterOf(piece: string): (r: Option<Parameter>)
    ensures r.Some? ==> IsWord(r.value.name)
  {
    var ws := Words(FinalRemoved(AnnotationsRemoved(piece), false));
    if |ws| >= 2 then Some(Parameter(ws[|ws| - 1], CleanTypeName(JoinSpace(ws[..|ws| - 1])))) else None
  }

  /** The parameters of the pieces that give one, in order. */
  function ParametersOf(pieces: seq<string>): (r: seq<Parameter>)
    ensures |r| <= |pieces|
  {
    if pieces == [] then []
    else match ParameterOf(pieces[0])
      case None => ParametersOf(pieces[1..])
      case Some(p) => [p] + ParametersOf(pieces[1..])
  }

  /** `parse_parameters` */
  function Parameters(params: string): (r: seq<Parameter>)
    ensures Strip(params) == [] ==> r == []
  {
    if Strip(params) == [] then [] else ParametersOf(TopLevelPieces(params))
  }

  /** `parse_parameters`: the split loop, then one parameter per piece that gives one. */
  method ParseParameters(params: string) returns (parameters: seq<Parameter>)
    ensures parameters == Parameters(params)
  {
    parameters := [];
    if Strip(params) == [] {
      return;
    }
    var parts := SplitParameters(params);
    assert parts[0..] == parts;
    assert Parameters(params) == ParametersOf(parts);
    for k := 0 to |parts|
      invariant parameters + ParametersOf(parts[k..]) == Parameters(params)
    {
      var p := ParameterOf(parts[k]);
      ParametersOfStep(parts, k);
      if p.Some? {
        ConcatAssoc(parameters, [p.value], ParametersOf(parts[k + 1..]));
        parameters := parameters + [p.value];
      }
    }
  }

  /** One turn of the parameter loop. */
  lemma ParametersOfStep(parts: seq<string>, k: nat)
    requires k < |parts|
    ensures ParametersOf(parts[k..]) ==
              (if ParameterOf(parts[k]).Some? then [ParameterOf(parts[k]).value] else []) + ParametersOf(parts[k + 1..])
  {
    assert parts[k..][0] == parts[k] && parts[k..][1..] == parts[k + 1..];
  }

  /** A text with no "final" in it is kept by the `final` substitution. */
  lemma {:induction false} FinalAbsentKept(s: string, afterWord: bool)
    requires !Contains(s, "final")
    ensures FinalRemoved(s, afterWord) == s
    decreases |s|
  {
    if s != [] {
      assert !("final" <= s);
      assert !Contains(s[1..], "final");
      FinalAbsentKept(s[1..], IsWordChar(s[0]));
    }
  }

  /**
   * Words joined by single spaces, with no annotation and no "final", give one parameter: the
   * last word is its name and the words before it, cleaned, its type.
   */
  lemma ParameterOfJoined(ws: seq<string>)
    requires |ws| >= 2 && forall k :: 0 <= k < |ws| ==> IsWord(ws[k])
    requires '@' !in JoinSpace(ws) && !Contains(JoinSpace(ws), "final")
    ensures ParameterOf(JoinSpace(ws)) == Some(Parameter(ws[|ws| - 1], CleanTypeName(JoinSpace(ws[..|ws| - 1]))))
  {
    FinalAbsentKept(JoinSpace(ws), false);
    WordsOfJoin(ws);
  }

  // ---------------------------------------------------------------------------------------
  // clean_type_name and get_visibility_from_modifiers

  /**
   * `clean_type_name`: "void" for an empty name; otherwise the whitespace runs collapsed to
   * single spaces, and a space before "[]" dropped. A name of only whitespace becomes "".
   */
  function CleanTypeName(t: string): (r: string)
    ensures t == [] ==> r == "void"
    ensures t != [] && (forall i :: 0 <= i < |t| ==> IsSpace(t[i])) ==> r == []
  {
    if t == [] then "void" else WordsOfBlank(t); ReplaceAll(Collapse(t), " []", "[]")
  }

  /** A name with no '[' is only collapsed: its words are kept, joined by single spaces. */
  lemma CleanPlainTypeName(t: string)
    requires t != [] && '[' !in t
    ensures CleanTypeName(t) == JoinSpace(Words(t))
  {
    CollapseKeepsOthers(t, '[');
    NoBracketNoOccurrence(Collapse(t));
    ReplaceAllAbsent(Collapse(t), " []", "[]");
  }

  lemma {:induction false} NoBracketNoOccurrence(s: string)
    requires '[' !in s
    ensures !Contains(s, " []")
    decreases |s|
  {
    if s != [] {
      assert !(" []" <= s) by {
        if |s| >= 2 {
          assert s[1] != '[';
        }
      }
      NoBracketNoOccurrence(s[1..]);
    }
  }

  /** The order of precedence of the visibilities. */
  function Rank(v: string): int {
    if v == "public" then 3 else if v == "private" then 2 else if v == "protected" then 1 else 0
  }

  /** `get_visibility_from_modifiers`: public before private before protected, and package when none is given. */
  function VisibilityOf(modifiers: seq<string>): (v: string)
    ensures v in ["public", "private", "protected", "package"]
  {
    if "public" in modifiers then "public"
    else if "private" in modifiers then "private"
    else if "protected" in modifiers then "protected"
    else "package"
  }

  /**
   * The visibility of a list is the one of highest precedence among its parts, so the order
   * of the modifiers does not matter.
   */
  lemma VisibilityPrecedence(a: seq<string>, b: seq<string>)
    ensures VisibilityOf(a + b) == (if Rank(VisibilityOf(a)) >= Rank(VisibilityOf(b)) then VisibilityOf(a) else VisibilityOf(b))
    ensures VisibilityOf(a + b) == VisibilityOf(b + a)
  {
  }

  /** A single visibility keyword gives itself. */
  lemma VisibilityOfKeyword(v: string)
    requires v in ["public", "private", "protected"]
    ensures VisibilityOf([v]) == v && Rank(v) > 0
  {
  }
}
