/**
 * The type and relation helpers of the PlantUML-to-XMI converter: the base class named by a
 * field type, whether a type is a collection, the UML visibility of a PlantUML symbol, the
 * record made from the parts of an attribute or method line, and the associations derived
 * from the attributes of the known classes.
 */
module CompleteXmiGenerator {
  import opened Wrappers
  import opened JavaStrings
  import opened PyStrings

  // ---------------------------------------------------------------------------------------
  // Small facts about strings

  /** A string with none of the character `c` cannot hold a text that has `c` in it. */
  lemma {:induction false} AbsentCharNotContained(s: string, sub: string, c: char)
    requires c in sub && c !in s
    ensures !Contains(s, sub)
    decreases |s|
  {
    var k :| 0 <= k < |sub| && sub[k] == c;
    assert k < |s| ==> s[k] != c;
    if |s| > 0 {
      AbsentCharNotContained(s[1..], sub, c);
    }
  }

  /** Every character of a piece of `s.split(sep)` is a character of `s`. */
  lemma {:induction false} SplitOnChars(s: string, sep: char, k: nat, x: char)
    requires k < |SplitOn(s, sep)| && x in SplitOn(s, sep)[k]
    ensures x in s
    decreases |s|
  {
    if sep in s {
      var i := IndexOfChar(s, sep);
      if k == 0 {
        assert SplitOn(s, sep)[0] == s[..i];
      } else {
        assert SplitOn(s, sep)[k] == SplitOn(s[i + 1..], sep)[k - 1];
        SplitOnChars(s[i + 1..], sep, k - 1, x);
        var j :| 0 <= j < |s[i + 1..]| && s[i + 1..][j] == x;
        assert s[i + 1 + j] == x;
      }
    }
  }

  /** Every character of `sep.join(parts)` is the separator or a character of a part. */
  lemma {:induction false} JoinOnChars(parts: seq<string>, sep: char, x: char)
    requires |parts| >= 1 && x in JoinOn(parts, sep)
    ensures x == sep || exists k :: 0 <= k < |parts| && x in parts[k]
  {
    if |parts| > 1 {
      var rest := JoinOn(parts[1..], sep);
      assert JoinOn(parts, sep) == parts[0] + [sep] + rest;
      if x !in parts[0] && x != sep {
        assert x in rest;
        JoinOnChars(parts[1..], sep, x);
        if x != sep {
          var k :| 0 <= k < |parts[1..]| && x in parts[1..][k];
          assert x in parts[k + 1];
        }
      }
    }
  }

  /** The last element of a non-empty sequence, as Python's `[-1]`. */
  function Last<T>(xs: seq<T>): T
    requires xs != []
  {
    xs[|xs| - 1]
  }

  // ---------------------------------------------------------------------------------------
  // extract_base_type

  /**
   * The pattern `<([^>]+)>` matches `s` from position `i`: a '<' at `i` whose first following
   * '>' is not the very next character. The greedy `[^>]+` cannot pass a '>', so the match
   * then ends at that first '>'.
   */
  predicate GenericAt(s: string, i: nat) {
    i < |s| && s[i] == '<' && '>' in s[i + 1..] && IndexOfChar(s[i + 1..], '>') >= 1
  }

  /** Where the match that starts at `i` ends: the first '>' after `i`. */
  function GenericEnd(s: string, i: nat): (j: nat)
    requires GenericAt(s, i)
    ensures i + 2 <= j < |s| && s[j] == '>' && '>' !in s[i + 1..j]
  {
    var k := IndexOfChar(s[i + 1..], '>');
    assert s[i + 1..i + 1 + k] == s[i + 1..][..k];
    i + 1 + k
  }

  /** `re.search(r'<([^>]+)>', s)` scanning from `from`: the start of the leftmost match at or after `from`. */
  function GenericFrom(s: string, from: nat): (r: Option<nat>)
    requires from <= |s|
    ensures r.Some? ==> from <= r.value && GenericAt(s, r.value)
    ensures r.Some? ==> forall i :: from <= i < r.value ==> !GenericAt(s, i)
    ensures r.None? ==> forall i :: from <= i ==> !GenericAt(s, i)
    decreases |s| - from
  {
    if from == |s| then None
    else if GenericAt(s, from) then Some(from)
    else GenericFrom(s, from + 1)
  }

  /** The start of the leftmost match of the generic-argument pattern in `s`, if there is one. */
  function FirstGeneric(s: string): (r: Option<nat>)
    ensures r.Some? ==> GenericAt(s, r.value)
    ensures r.Some? ==> forall i: nat :: i < r.value ==> !GenericAt(s, i)
    ensures r.None? ==> forall i :: !GenericAt(s, i)
  {
    GenericFrom(s, 0)
  }

  /** The text after the last `sep` of `s`, as `s.split(sep)[-1]`. */
  function LastPiece(s: string, sep: char): (r: string)
    ensures sep !in r
    ensures sep !in s ==> r == s
  {
    Last(SplitOn(s, sep))
  }

  /** The first step of `extract_base_type`: every "[]" removed. */
  function Unarrayed(t: string): (s: string)
    ensures '[' !in t ==> s == t
  {
    if '[' !in t then
      AbsentCharNotContained(t, "[]", '[');
      ReplaceAllAbsent(t, "[]", "");
      ReplaceAll(t, "[]", "")
    else ReplaceAll(t, "[]", "")
  }

  /**
   * The second step of `extract_base_type`: when both '<' and '>' occur, the stripped last
   * comma piece of the first generic argument list, or the text before the first '<' when no
   * list matches; otherwise the text unchanged.
   */
  function GenericPart(s: string): (r: string)
    ensures '<' !in s ==> r == s
  {
    if '<' in s && '>' in s then
      match FirstGeneric(s)
      case Some(i) =>
        var inner := s[i + 1..GenericEnd(s, i)];
        if ',' in inner then Strip(LastPiece(inner, ',')) else Strip(inner)
      case None => SplitOn(s, '<')[0]
    else s
  }

  /** The last step of `extract_base_type`: the last dotted segment. */
  function LastSegment(s: string): (r: string)
    ensures '.' !in r
    ensures '.' !in s ==> r == s
  {
    if '.' in s then LastPiece(s, '.') else s
  }

  /**
   * `extract_base_type`: "" for "", otherwise with every "[]" removed, the last comma piece
   * of the first generic argument list (or the text before the first '<' when '<' and '>'
   * occur but no list matches), stripped, and the last dotted segment of that.
   */
  function ExtractBaseType(t: string): (r: string)
    ensures t == [] ==> r == []
    ensures '.' !in r
  {
    if t == [] then [] else LastSegment(Strip(GenericPart(Unarrayed(t))))
  }

  /** A part of a qualified name: a word holding none of the characters the extraction looks at. */
  predicate Simple(w: string) {
    IsWord(w) && '.' !in w && '<' !in w && '>' !in w && '[' !in w && ',' !in w
  }

  /** The parts of a qualified name, joined by dots, with the characters the name can hold. */
  lemma QualifiedChars(qual: seq<string>)
    requires |qual| >= 1 && forall k :: 0 <= k < |qual| ==> Simple(qual[k])
    ensures '[' !in JoinOn(qual, '.') && '<' !in JoinOn(qual, '.') && '>' !in JoinOn(qual, '.')
  {
    var t := JoinOn(qual, '.');
    if '[' in t { JoinOnChars(qual, '.', '['); }
    if '<' in t { JoinOnChars(qual, '.', '<'); }
    if '>' in t { JoinOnChars(qual, '.', '>'); }
  }

  /** A qualified name neither begins nor ends with whitespace. */
  lemma {:induction false} QualifiedEnds(qual: seq<string>)
    requires |qual| >= 1 && forall k :: 0 <= k < |qual| ==> Simple(qual[k])
    ensures var t := JoinOn(qual, '.'); t != [] && !IsSpace(t[0]) && !IsSpace(t[|t| - 1])
  {
    var w := qual[0];
    assert Simple(w);
    if |qual| > 1 {
      QualifiedEnds(qual[1..]);
      assert JoinOn(qual, '.') == w + ['.'] + JoinOn(qual[1..], '.');
    } else {
      assert JoinOn(qual, '.') == w;
    }
  }

  /** `strip` keeps a text that neither begins nor ends with whitespace. */
  lemma StripKeeps(t: string)
    requires t != [] && !IsSpace(t[0]) && !IsSpace(t[|t| - 1])
    ensures Strip(t) == t
  {
    StripSurrounded([], t, []);
    assert [] + t + [] == t;
  }

  /** A qualified name passes the first three steps unchanged. */
  lemma QualifiedKept(qual: seq<string>)
    requires |qual| >= 1 && forall k :: 0 <= k < |qual| ==> Simple(qual[k])
    ensures var t := JoinOn(qual, '.'); t != [] && Strip(GenericPart(Unarrayed(t))) == t
  {
    var t := JoinOn(qual, '.');
    QualifiedChars(qual);
    assert GenericPart(Unarrayed(t)) == t;
    QualifiedEnds(qual);
    StripKeeps(t);
  }

  /** The last dotted segment of a qualified name is its last part. */
  lemma QualifiedLast(qual: seq<string>)
    requires |qual| >= 1 && forall k :: 0 <= k < |qual| ==> Simple(qual[k])
    ensures LastSegment(JoinOn(qual, '.')) == Last(qual)
  {
    var t := JoinOn(qual, '.');
    if |qual| == 1 {
      assert t == qual[0];
      assert Simple(qual[0]);
    } else {
      assert t == qual[0] + ['.'] + JoinOn(qual[1..], '.');
      assert t[|qual[0]|] == '.';
      JoinSplit(qual, '.');
    }
  }

  /** A qualified name gives its last segment, so a plain name gives itself. */
  lemma BaseOfQualified(qual: seq<string>)
    requires |qual| >= 1 && forall k :: 0 <= k < |qual| ==> Simple(qual[k])
    ensures ExtractBaseType(JoinOn(qual, '.')) == Last(qual)
  {
    QualifiedKept(qual);
    QualifiedLast(qual);
  }

  /** Removing "[]" from a text with no '[' before an appended "[]" removes just that. */
  lemma {:induction false} ReplaceArraySuffix(t: string)
    requires '[' !in t
    ensures ReplaceAll(t + "[]", "[]", "") == t
    decreases |t|
  {
    if t == [] {
      assert [] + "[]" == "[]";
      assert "[]"[2..] == [];
    } else {
      assert !("[]" <= t + "[]") by {
        assert (t + "[]")[0] == t[0];
      }
      assert (t + "[]")[1..] == t[1..] + "[]";
      ReplaceArraySuffix(t[1..]);
      assert [t[0]] + t[1..] == t;
    }
  }

  /** An array of a type has the base type of its element type. */
  lemma BaseOfArray(t: string)
    requires t != [] && '[' !in t
    ensures ExtractBaseType(t + "[]") == ExtractBaseType(t)
  {
    ReplaceArraySuffix(t);
    assert Unarrayed(t + "[]") == t == Unarrayed(t);
  }

  /** The generic step on `c<inner>` takes the stripped last comma piece of `inner`. */
  lemma GenericPartOfGeneric(c: string, inner: string)
    requires inner != []
    requires '<' !in c && '>' !in c
    requires '>' !in inner
    ensures GenericPart(c + "<" + inner + ">") == Strip(LastPiece(inner, ','))
  {
    var t := c + "<" + inner + ">";
    var i := |c|;
    assert t[i] == '<';
    assert t[i + 1..] == inner + ['>'] + [];
    IndexOfCharAfter(inner, '>', []);
    assert GenericAt(t, i);
    assert GenericEnd(t, i) == i + 1 + |inner|;
    assert t[i + 1..i + 1 + |inner|] == inner;
    forall i': nat | i' < i
      ensures !GenericAt(t, i')
    {
      assert t[i'] == c[i'];
    }
    assert FirstGeneric(t) == Some(i);
  }

  /**
   * A generic type `c<inner>` gives the base type of the last comma piece of its
   * arguments, so `Map<K, V>` gives the base type of `V`.
   */
  lemma BaseOfGeneric(c: string, inner: string)
    requires inner != []
    requires '<' !in c && '>' !in c && '[' !in c
    requires '<' !in inner && '>' !in inner && '[' !in inner
    ensures ExtractBaseType(c + "<" + inner + ">") == ExtractBaseType(LastPiece(inner, ','))
  {
    var t := c + "<" + inner + ">";
    assert '[' !in t;
    assert Unarrayed(t) == t;
    GenericPartOfGeneric(c, inner);
    var last := LastPiece(inner, ',');
    StripIdempotent(last);
    var ps := SplitOn(inner, ',');
    assert '<' !in last && '[' !in last by {
      if '<' in last { SplitOnChars(inner, ',', |ps| - 1, '<'); }
      if '[' in last { SplitOnChars(inner, ',', |ps| - 1, '['); }
    }
    if last != [] {
      assert Unarrayed(last) == last && GenericPart(last) == last;
    }
  }

  /** A worked case: a fully qualified class name gives its simple name. */
  lemma BaseTypeOfQualified()
    ensures ExtractBaseType("ethanjones.cubes.world.Area") == "Area"
  {
    var qual := ["ethanjones", "cubes", "world", "Area"];
    assert Simple(qual[0]);
    assert Simple(qual[1]);
    assert Simple(qual[2]);
    assert Simple(qual[3]);
    assert JoinOn(qual, '.') == "ethanjones.cubes.world.Area";
    BaseOfQualified(qual);
  }

  // ---------------------------------------------------------------------------------------
  // is_collection_type

  /** The type names `is_collection_type` looks for, in its order. */
  const COLLECTION_TYPES: seq<string> := [
    "List", "ArrayList", "LinkedList", "Vector",
    "Set", "HashSet", "TreeSet", "LinkedHashSet",
    "Map", "HashMap", "TreeMap", "LinkedHashMap", "LongMap",
    "Collection", "Queue", "Deque", "ArrayDeque",
    "ConcurrentLinkedQueue", "LinkedBlockingQueue",
    "AtomicReference"
  ]

  /** Whether one of `names` occurs in `t`, tried in order. */
  function AnyContained(t: string, names: seq<string>): (b: bool)
    ensures b <==> exists k :: 0 <= k < |names| && Contains(t, names[k])
  {
    if names == [] then false
    else if Contains(t, names[0]) then true
    else
      var b := AnyContained(t, names[1..]);
      assert b ==> exists k :: 0 <= k < |names| && Contains(t, names[k]) by {
        if b {
          var k :| 0 <= k < |names[1..]| && Contains(t, names[1..][k]);
          assert Contains(t, names[k + 1]);
        }
      }
      assert (exists k :: 0 <= k < |names| && Contains(t, names[k])) ==> b by {
        if exists k :: 0 <= k < |names| && Contains(t, names[k]) {
          var k :| 0 <= k < |names| && Contains(t, names[k]);
          assert k != 0;
          assert Contains(t, names[1..][k - 1]);
        }
      }
      b
  }

  /** `is_collection_type`: one of the collection names, or "[]", occurs in the type. */
  function IsCollectionType(t: string): (b: bool)
    ensures b <==> (exists k :: 0 <= k < |COLLECTION_TYPES| && Contains(t, COLLECTION_TYPES[k])) || Contains(t, "[]")
  {
    AnyContained(t, COLLECTION_TYPES) || Contains(t, "[]")
  }

  /** A text found in `s` is found in `s` with more text on either side. */
  lemma {:induction false} ContainsExtended(a: string, s: string, b: string, sub: string)
    requires Contains(s, sub)
    ensures Contains(a + s + b, sub)
    decreases |a|, |s|
  {
    if a != [] {
      ContainsExtended(a[1..], s, b, sub);
      assert (a + s + b)[1..] == a[1..] + s + b;
    } else if sub <= s {
      assert a + s + b == s + b;
      assert sub <= s + b;
    } else {
      ContainsExtended([], s[1..], b, sub);
      assert ([] + s + b)[1..] == [] + s[1..] + b;
    }
  }

  /** A type that holds a collection type is a collection type too, whatever surrounds it. */
  lemma CollectionTypeExtended(a: string, t: string, b: string)
    requires IsCollectionType(t)
    ensures IsCollectionType(a + t + b)
  {
    if Contains(t, "[]") {
      ContainsExtended(a, t, b, "[]");
    } else {
      var k :| 0 <= k < |COLLECTION_TYPES| && Contains(t, COLLECTION_TYPES[k]);
      ContainsExtended(a, t, b, COLLECTION_TYPES[k]);
    }
  }

  /** Every array type is a collection type. */
  lemma ArrayIsCollection(t: string)
    ensures IsCollectionType(t + "[]")
  {
    assert Contains("[]", "[]");
    ContainsExtended(t, "[]", [], "[]");
    assert t + "[]" + [] == t + "[]";
  }

  /** Each listed collection name is itself a collection type. */
  lemma ListedIsCollection(k: nat)
    requires k < |COLLECTION_TYPES|
    ensures IsCollectionType(COLLECTION_TYPES[k])
  {
    assert COLLECTION_TYPES[k] <= COLLECTION_TYPES[k];
  }

  // ---------------------------------------------------------------------------------------
  // parse_visibility

  /** `parse_visibility`: + - # ~ to public, private, protected and package; anything else to public. */
  function ParseVisibility(symbol: string): (v: string)
    ensures v in ["public", "private", "protected", "package"]
    ensures v == "package" <==> symbol == "~"
    ensures symbol !in ["+", "-", "#", "~"] ==> v == "public"
  {
    if symbol == "+" then "public"
    else if symbol == "-" then "private"
    else if symbol == "#" then "protected"
    else if symbol == "~" then "package"
    else "public"
  }

  /** The four symbols map to four different visibilities. */
  lemma ParseVisibilityInjective(a: string, b: string)
    requires a in ["+", "-", "#", "~"] && b in ["+", "-", "#", "~"]
    requires ParseVisibility(a) == ParseVisibility(b)
    ensures a == b
  {
  }

  // ---------------------------------------------------------------------------------------
  // parse_attribute_line and parse_method_line, after the line pattern has matched

  /** An attribute of a class diagram element. */
  datatype Attribute = Attribute(name: string, typeName: string, visibility: string, isStatic: bool, isReadonly: bool)

  /**
   * The attribute made from the groups of the attribute pattern: the visibility symbol
   * (possibly empty), the `{...}` modifiers if present, the name and the type text.
   */
  function AttributeOf(symbol: string, modifiers: Option<string>, name: string, typeText: string): (a: Attribute)
    ensures symbol == [] ==> a.visibility == "public"
    ensures a.isReadonly <==> modifiers.Some? && Contains(modifiers.value, "readonly")
    ensures a.isStatic <==> modifiers.Some? && Contains(modifiers.value, "static")
    ensures a.name == name && a.typeName == Strip(typeText)
  {
    var mods := if modifiers.Some? then modifiers.value else "";
    Attribute(name, Strip(typeText), ParseVisibility(if symbol == [] then "+" else symbol),
              Contains(mods, "static"), Contains(mods, "readonly"))
  }

  /** A missing visibility symbol reads as '+'. */
  lemma AttributeDefaultVisibility(modifiers: Option<string>, name: string, typeText: string)
    ensures AttributeOf([], modifiers, name, typeText) == AttributeOf("+", modifiers, name, typeText)
  {
  }

  /** A parameter of a method in a diagram, written `name : type`. */
  datatype Param = Param(name: string, typeName: string)

  /** One comma piece of a parameter list: kept, split at its first ':', only when it holds a ':'. */
  function ParamOf(piece: string): (r: Option<Param>)
    ensures r.Some? <==> ':' in Strip(piece)
  {
    var p := Strip(piece);
    if ':' in p then
      var i := IndexOfChar(p, ':');
      Some(Param(Strip(p[..i]), Strip(p[i + 1..])))
    else None
  }

  /** The parameters of the pieces that give one, in order. */
  function ParamsOf(pieces: seq<string>): (r: seq<Param>)
    ensures |r| <= |pieces|
  {
    if pieces == [] then []
    else match ParamOf(pieces[0])
      case None => ParamsOf(pieces[1..])
      case Some(p) => [p] + ParamsOf(pieces[1..])
  }

  /** The number of parameters is the number of comma pieces that hold a ':'. */
  function CountWithColon(pieces: seq<string>): nat {
    if pieces == [] then 0 else (if ':' in Strip(pieces[0]) then 1 else 0) + CountWithColon(pieces[1..])
  }

  lemma {:induction false} ParamsOfCount(pieces: seq<string>)
    ensures |ParamsOf(pieces)| == CountWithColon(pieces)
  {
    if pieces != [] {
      ParamsOfCount(pieces[1..]);
    }
  }

  /** A method of a class diagram element. */
  datatype Method = Method(name: string, visibility: string, parameters: seq<Param>, returnType: string,
                           isStatic: bool, isAbstract: bool)

  /**
   * The method made from the groups of the method pattern: the visibility symbol, the
   * modifiers if present, the name, the parameter text and the return type if present.
   */
  function MethodOf(symbol: string, modifiers: Option<string>, name: string, params: string,
                    returnType: Option<string>): (m: Method)
    ensures returnType.None? ==> m.returnType == "void"
    ensures symbol == [] ==> m.visibility == "public"
    ensures Strip(params) == [] ==> m.parameters == []
    ensures |m.parameters| <= |SplitOn(params, ',')|
  {
    var mods := if modifiers.Some? then modifiers.value else "";
    var ps := if Strip(params) == [] then [] else ParamsOf(SplitOn(params, ','));
    Method(name, ParseVisibility(if symbol == [] then "+" else symbol), ps,
           if returnType.Some? && returnType.value != [] then returnType.value else "void",
           Contains(mods, "static"), Contains(mods, "abstract"))
  }

  /** Pieces without a ':' are dropped, so a list without any ':' gives no parameters. */
  lemma MethodParamsNeedColon(symbol: string, modifiers: Option<string>, name: string, params: string,
                              returnType: Option<string>)
    requires ':' !in params
    ensures MethodOf(symbol, modifiers, name, params, returnType).parameters == []
  {
    var pieces := SplitOn(params, ',');
    if Strip(params) != [] {
      NoColonPieces(params, pieces);
    }
  }

  lemma {:induction false} NoColonPiecesFrom(pieces: seq<string>)
    requires forall k :: 0 <= k < |pieces| ==> ':' !in Strip(pieces[k])
    ensures ParamsOf(pieces) == []
  {
    if pieces != [] {
      NoColonPiecesFrom(pieces[1..]);
    }
  }

  lemma NoColonPieces(params: string, pieces: seq<string>)
    requires ':' !in params && pieces == SplitOn(params, ',')
    ensures ParamsOf(pieces) == []
  {
    forall k | 0 <= k < |pieces|
      ensures ':' !in Strip(pieces[k])
    {
      if ':' in Strip(pieces[k]) {
        StripChars(pieces[k], ':');
        SplitOnChars(params, ',', k, ':');
      }
    }
    NoColonPiecesFrom(pieces);
  }

  /** Every character of `strip(s)` is a character of `s`. */
  lemma StripChars(s: string, x: char)
    requires x in Strip(s)
    ensures x in s
  {
    var a := LeadSpace(s);
    var r := Strip(s);
    var k :| 0 <= k < |r| && r[k] == x;
    assert s[a + k] == x;
  }

  // ---------------------------------------------------------------------------------------
  // generate_associations_from_attributes

  /** The kind of a derived relation. */
  datatype AssociationKind = Composition | Aggregation | Plain

  /** A relation from a class to the class named by the base type of one of its attributes. */
  datatype Association = Association(source: string, target: string, kind: AssociationKind, attribute: string)

  /** A class of the diagram with its attributes, in the order of the class table. */
  datatype ClassInfo = ClassInfo(name: string, attributes: seq<Attribute>)

  /** A read-only attribute, or one whose type mentions `final` in any letter case, is a part; a collection an aggregate. */
  function KindOf(a: Attribute): (k: AssociationKind)
    ensures k == Composition <==> a.isReadonly || Contains(ToLowerAscii(a.typeName), "final")
    ensures k == Aggregation <==> !a.isReadonly && !Contains(ToLowerAscii(a.typeName), "final") && IsCollectionType(a.typeName)
  {
    if a.isReadonly || Contains(ToLowerAscii(a.typeName), "final") then Composition
    else if IsCollectionType(a.typeName) then Aggregation
    else Plain
  }

  /** The names of the classes of the table. */
  function KnownClasses(classes: seq<ClassInfo>): (r: set<string>)
    ensures forall k :: 0 <= k < |classes| ==> classes[k].name in r
  {
    if classes == [] then {}
    else
      var front := classes[..|classes| - 1];
      assert forall k :: 0 <= k < |classes| - 1 ==> classes[k].name == front[k].name;
      KnownClasses(front) + {classes[|classes| - 1].name}
  }

  /** The known names are exactly the names of the classes of the table. */
  lemma {:induction false} KnownClassesExactly(classes: seq<ClassInfo>, x: string)
    ensures x in KnownClasses(classes) <==> exists k :: 0 <= k < |classes| && classes[k].name == x
  {
    if classes != [] {
      var front := classes[..|classes| - 1];
      KnownClassesExactly(front, x);
      if x in KnownClasses(front) {
        var k :| 0 <= k < |front| && front[k].name == x;
        assert classes[k].name == x;
      }
    }
  }

  /** The association one attribute of `source` gives, if its base type is another known class. */
  function AssociationOf(known: set<string>, source: string, a: Attribute): (r: Option<Association>)
    ensures r.Some? <==> ExtractBaseType(a.typeName) in known && ExtractBaseType(a.typeName) != source
    ensures r.Some? ==> r.value == Association(source, ExtractBaseType(a.typeName), KindOf(a), a.name)
  {
    var target := ExtractBaseType(a.typeName);
    if target in known && target != source then Some(Association(source, target, KindOf(a), a.name)) else None
  }

  /** The associations given by a list of attributes of `source`, in attribute order. */
  function AttributeAssociations(known: set<string>, source: string, attrs: seq<Attribute>): (r: seq<Association>)
    ensures |r| <= |attrs|
    ensures forall k :: 0 <= k < |r| ==> r[k].source == source && r[k].target in known && r[k].target != source
  {
    if attrs == [] then []
    else
      var front := AttributeAssociations(known, source, attrs[..|attrs| - 1]);
      match AssociationOf(known, source, attrs[|attrs| - 1])
      case None => front
      case Some(x) => front + [x]
  }

  /** The associations given by a list of classes, class by class. */
  function ClassAssociations(known: set<string>, classes: seq<ClassInfo>): seq<Association> {
    if classes == [] then []
    else
      var c := classes[|classes| - 1];
      ClassAssociations(known, classes[..|classes| - 1]) + AttributeAssociations(known, c.name, c.attributes)
  }

  /** Every derived association goes to a known class other than its source. */
  lemma {:induction false} ClassAssociationsSound(known: set<string>, classes: seq<ClassInfo>)
    ensures forall x :: x in ClassAssociations(known, classes) ==> x.target in known && x.target != x.source
  {
    if classes != [] {
      var c := classes[|classes| - 1];
      ClassAssociationsSound(known, classes[..|classes| - 1]);
      var r := AttributeAssociations(known, c.name, c.attributes);
      assert forall x :: x in r ==> x.target in known && x.target != x.source by {
        forall x | x in r
          ensures x.target in known && x.target != x.source
        {
          var k :| 0 <= k < |r| && r[k] == x;
        }
      }
    }
  }

  /** One more attribute adds its association, if it gives one, at the end. */
  lemma AttributeAssociationsStep(known: set<string>, source: string, attrs: seq<Attribute>, m: nat)
    requires m < |attrs|
    ensures var x := AssociationOf(known, source, attrs[m]);
      AttributeAssociations(known, source, attrs[..m + 1]) ==
        AttributeAssociations(known, source, attrs[..m]) + (if x.Some? then [x.value] else [])
  {
    assert attrs[..m + 1][..m] == attrs[..m];
  }

  /** One more class adds its name to the known ones. */
  lemma KnownClassesStep(classes: seq<ClassInfo>, k: nat)
    requires k < |classes|
    ensures KnownClasses(classes[..k + 1]) == KnownClasses(classes[..k]) + {classes[k].name}
  {
    assert classes[..k + 1][..k] == classes[..k];
  }

  /** One more class adds the associations of its attributes at the end. */
  lemma ClassAssociationsStep(known: set<string>, classes: seq<ClassInfo>, k: nat)
    requires k < |classes|
    ensures ClassAssociations(known, classes[..k + 1]) ==
              ClassAssociations(known, classes[..k]) + AttributeAssociations(known, classes[k].name, classes[k].attributes)
  {
    assert classes[..k + 1][..k] == classes[..k];
  }

  /** Every attribute whose base type is another known class gives an association to that class. */
  lemma {:induction false} AttributeAssociationsComplete(known: set<string>, source: string, attrs: seq<Attribute>, m: nat)
    requires m < |attrs|
    requires ExtractBaseType(attrs[m].typeName) in known && ExtractBaseType(attrs[m].typeName) != source
    ensures Association(source, ExtractBaseType(attrs[m].typeName), KindOf(attrs[m]), attrs[m].name)
              in AttributeAssociations(known, source, attrs)
  {
    var front := attrs[..|attrs| - 1];
    if m < |attrs| - 1 {
      AttributeAssociationsComplete(known, source, front, m);
      assert front[m] == attrs[m];
    }
  }

  /** Each class's own associations are among the ones of the whole table. */
  lemma {:induction false} ClassAssociationsComplete(known: set<string>, classes: seq<ClassInfo>, k: nat, x: Association)
    requires k < |classes| && x in AttributeAssociations(known, classes[k].name, classes[k].attributes)
    ensures x in ClassAssociations(known, classes)
  {
    if k < |classes| - 1 {
      ClassAssociationsComplete(known, classes[..|classes| - 1], k, x);
    }
  }

  /** The converter: the relations it has derived so far. */
  class XmiGenerator {
    var associations: seq<Association>

    constructor ()
      ensures associations == []
    {
      associations := [];
    }

    /**
     * `generate_associations_from_attributes`: builds the set of known class names, then
     * appends, for each class in table order and each of its attributes in order, the
     * association to the known class its type names.
     */
    method GenerateAssociationsFromAttributes(classes: seq<ClassInfo>)
      modifies this
      ensures associations == old(associations) + ClassAssociations(KnownClasses(classes), classes)
    {
      var known := KnownClassNames(classes);
      assert classes[..0] == [];
      for k := 0 to |classes|
        invariant associations == old(associations) + ClassAssociations(known, classes[..k])
      {
        AddAttributeAssociations(known, classes[k]);
        ClassAssociationsStep(known, classes, k);
        ConcatAssoc(old(associations), ClassAssociations(known, classes[..k]),
                    AttributeAssociations(known, classes[k].name, classes[k].attributes));
      }
      assert classes[..|classes|] == classes;
    }

    /** The first loop: the set of the class names of the table. */
    static method KnownClassNames(classes: seq<ClassInfo>) returns (known: set<string>)
      ensures known == KnownClasses(classes)
    {
      known := {};
      for k := 0 to |classes|
        invariant known == KnownClasses(classes[..k])
      {
        KnownClassesStep(classes, k);
        known := known + {classes[k].name};
      }
      assert classes[..|classes|] == classes;
    }

    /** The inner loop: the associations of the attributes of one class, appended in order. */
    method AddAttributeAssociations(known: set<string>, c: ClassInfo)
      modifies this
      ensures associations == old(associations) + AttributeAssociations(known, c.name, c.attributes)
    {
      for m := 0 to |c.attributes|
        invariant associations == old(associations) + AttributeAssociations(known, c.name, c.attributes[..m])
      {
        var x := AssociationOf(known, c.name, c.attributes[m]);
        AttributeAssociationsStep(known, c.name, c.attributes, m);
        if x.Some? {
          associations := associations + [x.value];
        }
      }
      assert c.attributes[..|c.attributes|] == c.attributes;
    }
  }

  /** The derived relations go only to known classes other than their source, and miss none of them. */
  lemma AssociationsExactlyKnown(classes: seq<ClassInfo>, k: nat, m: nat)
    requires k < |classes| && m < |classes[k].attributes|
    ensures var a := classes[k].attributes[m];
      var known := KnownClasses(classes);
      var target := ExtractBaseType(a.typeName);
      target in known && target != classes[k].name ==>
        Association(classes[k].name, target, KindOf(a), a.name) in ClassAssociations(known, classes)
  {
    var a := classes[k].attributes[m];
    var known := KnownClasses(classes);
    var target := ExtractBaseType(a.typeName);
    if target in known && target != classes[k].name {
      AttributeAssociationsComplete(known, classes[k].name, classes[k].attributes, m);
      ClassAssociationsComplete(known, classes, k, Association(classes[k].name, target, KindOf(a), a.name));
    }
  }
}
