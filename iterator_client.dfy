/** `IteratorClient.inspectAll`: one line per element of a collection, with an optional limit. */
module IteratorClient {
  import opened Wrappers
  import opened JavaStrings

  const NULL_COLLECTION: string := "<null collection>"
  const NULL_ELEMENT: string := "<null element>"
  const EMPTY: string := "<empty>"

  /** The line that marks a cut-off listing. */
  function TruncatedLine(maxItems: int): string {
    "... (truncated, maxItems=" + IntToString(maxItems) + ")"
  }

  /** The line for one element: its `inspect()` text, or the marker for a null element. */
  function Line(e: Option<string>): string {
    if e.Some? then e.value else NULL_ELEMENT
  }

  function Lines(es: seq<Option<string>>): (r: seq<string>)
    ensures |r| == |es|
    ensures forall k :: 0 <= k < |es| ==> r[k] == Line(es[k])
  {
    if |es| == 0 then [] else [Line(es[0])] + Lines(es[1..])
  }

  /** Whether the listing of `n` elements is cut off at `maxItems`. */
  predicate Truncates(n: int, maxItems: int) {
    maxItems > 0 && n > maxItems
  }

  /** The listing `inspectAll` returns for a collection (None for null) of elements (None for null). */
  function Listing(collection: Option<seq<Option<string>>>, maxItems: int): (r: seq<string>)
  {
    if collection.None? then [NULL_COLLECTION]
    else
      var es := collection.value;
      var shown := if Truncates(|es|, maxItems) then maxItems else |es|;
      Lines(es[..shown])
      + (if Truncates(|es|, maxItems) then [TruncatedLine(maxItems)] else [])
      + (if shown == 0 then [EMPTY] else [])
  }

  /** `inspectAll`: walks the elements, stopping with a truncation line once `maxItems` have
      been listed (a limit of zero or less meaning none). */
  method InspectAll(collection: Option<seq<Option<string>>>, maxItems: int) returns (out: seq<string>)
    ensures out == Listing(collection, maxItems)
  {
    out := [];
    if collection.None? {
      out := out + [NULL_COLLECTION];
      return;
    }
    var es := collection.value;
    var i := 0;
    var count := 0;
    while i < |es|
      invariant 0 <= i <= |es| && count == i
      invariant !Truncates(|es|, maxItems) || i <= maxItems
      invariant out == Lines(es[..i])
    {
      if maxItems > 0 && count >= maxItems {
        out := out + [TruncatedLine(maxItems)];
        break;
      }
      var element := es[i];
      assert es[..i + 1] == es[..i] + [element];
      LinesAppend(es[..i], element);
      out := out + [if element.None? then NULL_ELEMENT else element.value];
      i := i + 1;
      count := count + 1;
    }
    if count == 0 {
      out := out + [EMPTY];
    }
  }

  lemma LinesAppend(es: seq<Option<string>>, e: Option<string>)
    ensures Lines(es + [e]) == Lines(es) + [Line(e)]
  {
    var a := Lines(es + [e]);
    var b := Lines(es) + [Line(e)];
    assert |a| == |b|;
    forall k | 0 <= k < |a|
      ensures a[k] == b[k]
    {
      assert (es + [e])[k] == if k < |es| then es[k] else e;
    }
  }

  /** The promises of the listing: a null or empty collection gives its one marker line; with
      a positive limit there are at most that many element lines and one more line when
      elements remain; without a limit every element is listed. */
  lemma ListingShape(collection: Option<seq<Option<string>>>, maxItems: int)
    ensures collection.None? ==> Listing(collection, maxItems) == [NULL_COLLECTION]
    ensures collection == Some([]) ==> Listing(collection, maxItems) == [EMPTY]
    ensures maxItems > 0 ==> |Listing(collection, maxItems)| <= maxItems + 1
    ensures collection.Some? && maxItems <= 0 && |collection.value| > 0 ==>
      Listing(collection, maxItems) == Lines(collection.value)
    ensures collection.Some? && Truncates(|collection.value|, maxItems) ==>
      Listing(collection, maxItems) == Lines(collection.value[..maxItems]) + [TruncatedLine(maxItems)]
  {
    if collection.Some? {
      var es := collection.value;
      if maxItems <= 0 && |es| > 0 {
        assert es[..|es|] == es;
      }
    }
  }
}
