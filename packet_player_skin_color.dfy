/**
 * The packet that tells clients a player's skin colour: the player's UUID as two longs,
 * most significant half first, then the colour name.
 */
module PacketPlayerSkinColor {
  import opened Wrappers
  import opened JavaInts
  import opened Wire

  /** A `java.util.UUID`, by its two 64-bit halves. */
  datatype Uuid = Uuid(most: int, least: int)

  predicate ValidUuid(u: Uuid) {
    IsLong(u.most) && IsLong(u.least)
  }

  /** The colour written for a packet whose colour is null. */
  const DEFAULT_COLOR: string := "default"

  /** The colour as it goes on the wire. */
  function WireColor(color: Option<string>): (r: string)
    ensures color.Some? ==> r == color.value
    ensures color.None? ==> r == DEFAULT_COLOR
  {
    if color.Some? then color.value else DEFAULT_COLOR
  }

  /** The values `write` emits for a packet with these fields. */
  function Encode(u: Uuid, color: Option<string>): (r: seq<Item>)
    ensures |r| == 3 && r[0].Long? && r[1].Long? && r[2].Utf?
  {
    [Long(u.most), Long(u.least), Utf(WireColor(color))]
  }

  /** What `read` recovers from the stream at position `k`: the UUID, the colour, and the
      position after them. */
  function Decode(items: seq<Item>, k: nat): (r: Result<(Uuid, string, nat)>)
    ensures r.Ok? ==> r.value.2 == k + 3 && k + 3 <= |items|
    ensures r.Ok? ==> items[k..k + 3] == [Long(r.value.0.most), Long(r.value.0.least), Utf(r.value.1)]
  {
    var most := LongAt(items, k);
    if most.Err? then Err(most.error)
    else
      var least := LongAt(items, k + 1);
      if least.Err? then Err(least.error)
      else
        var color := UtfAt(items, k + 2);
        if color.Err? then Err(color.error)
        else Ok((Uuid(most.value, least.value), color.value, k + 3))
  }

  class Packet {
    var playerUuid: Option<Uuid>
    var skinColor: Option<string>

    constructor ()
      ensures playerUuid == None && skinColor == None
    {
      playerUuid := None;
      skinColor := None;
    }

    /** `write`: fails, writing nothing, when the UUID is null. */
    method Write(out: DataOutput) returns (r: Result<()>)
      requires playerUuid.Some? ==> ValidUuid(playerUuid.value)
      modifies out
      ensures out.flushed == old(out.flushed)
      ensures playerUuid.None? ==> r == Err(NullPointer) && out.items == old(out.items)
      ensures playerUuid.Some? ==> r.Ok? && out.items == old(out.items) + Encode(playerUuid.value, skinColor)
    {
      if playerUuid.None? {
        return Err(NullPointer);
      }
      out.WriteLong(playerUuid.value.most);
      out.WriteLong(playerUuid.value.least);
      out.WriteUtf(if skinColor.Some? then skinColor.value else DEFAULT_COLOR);
      r := Ok(());
    }

    /** `read`: the UUID is set once both longs are read, and the colour once the string is. */
    method Read(input: DataInput) returns (r: Result<()>)
      requires input.pos <= |input.items|
      modifies this, input
      ensures input.pos <= |input.items|
      ensures Decode(input.items, old(input.pos)).Ok? ==>
        var d := Decode(input.items, old(input.pos)).value;
        r.Ok? && playerUuid == Some(d.0) && skinColor == Some(d.1) && input.pos == d.2
      ensures Decode(input.items, old(input.pos)).Err? ==>
        r == Err(Decode(input.items, old(input.pos)).error) && skinColor == old(skinColor)
      ensures Decode(input.items, old(input.pos)).Err? ==>
        var m := LongAt(input.items, old(input.pos));
        var l := LongAt(input.items, old(input.pos) + 1);
        playerUuid == if m.Ok? && l.Ok? then Some(Uuid(m.value, l.value)) else old(playerUuid)
    {
      var most := input.ReadLong();
      if most.Err? {
        return Err(most.error);
      }
      var least := input.ReadLong();
      if least.Err? {
        return Err(least.error);
      }
      playerUuid := Some(Uuid(most.value, least.value));
      var color := input.ReadUtf();
      if color.Err? {
        return Err(color.error);
      }
      skinColor := Some(color.value);
      r := Ok(());
    }
  }

  /** Reading back what `write` emitted, wherever in the stream it lies, restores the UUID
      and the colour, a null colour coming back as "default". */
  lemma RoundTrip(before: seq<Item>, u: Uuid, color: Option<string>, after: seq<Item>)
    ensures Decode(before + Encode(u, color) + after, |before|) == Ok((u, WireColor(color), |before| + 3))
  {
    var s := before + Encode(u, color) + after;
    assert s[|before|] == Long(u.most) && s[|before| + 1] == Long(u.least) && s[|before| + 2] == Utf(WireColor(color));
  }
}
