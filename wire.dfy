/**
 * The data streams the packets and the handshake use, at the level of the values written:
 * each `writeLong`, `writeInt`, `writeUTF` or `writeByte` appends one item, and each read
 * takes the next item, failing at the end of the stream or on an item of another kind.
 */
module Wire {
  import opened Wrappers
  import opened JavaInts

  datatype Item = Long(l: int) | Int(i: int) | Utf(s: string) | Byte(b: int)

  /** The values written to an output stream so far. */
  class DataOutput {
    var items: seq<Item>
    var flushed: bool

    constructor ()
      ensures items == [] && !flushed
    {
      items := [];
      flushed := false;
    }

    method WriteLong(v: int)
      requires IsLong(v)
      modifies this
      ensures items == old(items) + [Long(v)] && flushed == old(flushed)
    {
      items := items + [Long(v)];
    }

    method WriteInt(v: int)
      requires IsInt(v)
      modifies this
      ensures items == old(items) + [Int(v)] && flushed == old(flushed)
    {
      items := items + [Int(v)];
    }

    method WriteUtf(s: string)
      modifies this
      ensures items == old(items) + [Utf(s)] && flushed == old(flushed)
    {
      items := items + [Utf(s)];
    }

    method Flush()
      modifies this
      ensures items == old(items) && flushed
    {
      flushed := true;
    }
  }

  /** A stream being read: the values it holds and how many have been taken. */
  class DataInput {
    const items: seq<Item>
    var pos: nat

    constructor (items: seq<Item>)
      ensures this.items == items && pos == 0
    {
      this.items := items;
      pos := 0;
    }

    /** The next value, if it is a long; the stream does not move on a failure. */
    method ReadLong() returns (r: Result<int>)
      requires pos <= |items|
      modifies this
      ensures pos <= |items|
      ensures r == LongAt(items, old(pos))
      ensures pos == if r.Ok? then old(pos) + 1 else old(pos)
    {
      if pos < |items| && items[pos].Long? {
        r := Ok(items[pos].l);
        pos := pos + 1;
      } else {
        r := Err(EndOfStream);
      }
    }

    /** The next value, if it is a byte. */
    method ReadByte() returns (r: Result<int>)
      requires pos <= |items|
      modifies this
      ensures pos <= |items|
      ensures r == ByteAt(items, old(pos))
      ensures pos == if r.Ok? then old(pos) + 1 else old(pos)
    {
      if pos < |items| && items[pos].Byte? {
        r := Ok(items[pos].b);
        pos := pos + 1;
      } else {
        r := Err(EndOfStream);
      }
    }

    /** The next value, if it is a string. */
    method ReadUtf() returns (r: Result<string>)
      requires pos <= |items|
      modifies this
      ensures pos <= |items|
      ensures r == UtfAt(items, old(pos))
      ensures pos == if r.Ok? then old(pos) + 1 else old(pos)
    {
      if pos < |items| && items[pos].Utf? {
        r := Ok(items[pos].s);
        pos := pos + 1;
      } else {
        r := Err(EndOfStream);
      }
    }
  }

  /** The byte at position `k` of a stream, or the failure reading it there. */
  function ByteAt(items: seq<Item>, k: nat): (r: Result<int>)
    ensures r.Ok? <==> k < |items| && items[k].Byte?
    ensures r.Ok? ==> items[k] == Byte(r.value)
    ensures r.Err? ==> r.error == EndOfStream
  {
    if k < |items| && items[k].Byte? then Ok(items[k].b) else Err(EndOfStream)
  }

  /** The long at position `k` of a stream, or the failure reading it there. */
  function LongAt(items: seq<Item>, k: nat): (r: Result<int>)
    ensures r.Ok? <==> k < |items| && items[k].Long?
    ensures r.Ok? ==> items[k] == Long(r.value)
    ensures r.Err? ==> r.error == EndOfStream
  {
    if k < |items| && items[k].Long? then Ok(items[k].l) else Err(EndOfStream)
  }

  /** The string at position `k` of a stream, or the failure reading it there. */
  function UtfAt(items: seq<Item>, k: nat): (r: Result<string>)
    ensures r.Ok? <==> k < |items| && items[k].Utf?
    ensures r.Ok? ==> items[k] == Utf(r.value)
    ensures r.Err? ==> r.error == EndOfStream
  {
    if k < |items| && items[k].Utf? then Ok(items[k].s) else Err(EndOfStream)
  }
}
