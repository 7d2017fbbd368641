/**
 * The server's side of the first exchange on a new connection. The client sends one intent
 * byte within `TIMEOUT` milliseconds; the server answers with its version, then either hands
 * the socket to the server's networking (code 0), answers a ping with the names of the
 * connected players and closes (code 1), or fails (any other code). `Checker.call` closes the
 * socket after any failure.
 */
module ServerConnectionInitializer {
  import opened Wrappers
  import opened JavaInts
  import opened JavaStrings
  import opened Wire

  /** Milliseconds the client has to send its intent byte. */
  const TIMEOUT: int := 5000

  /** The `Branding` constants the server sends. Their values are not part of this model. */
  datatype Version = Version(major: int, minor: int, point: int, build: int, hash: string)

  predicate ValidVersion(v: Version) {
    IsInt(v.major) && IsInt(v.minor) && IsInt(v.point) && IsInt(v.build)
  }

  /** The version as it goes on the wire: four ints, then the hash. */
  function VersionItems(v: Version): (r: seq<Item>)
    ensures |r| == 5 && r[4] == Utf(v.hash)
  {
    [Int(v.major), Int(v.minor), Int(v.point), Int(v.build), Utf(v.hash)]
  }

  /** One string item per player name, in order. */
  function Names(usernames: seq<string>): (r: seq<Item>)
    ensures |r| == |usernames|
    ensures forall i :: 0 <= i < |r| ==> r[i] == Utf(usernames[i])
  {
    if usernames == [] then [] else [Utf(usernames[0])] + Names(usernames[1..])
  }

  /** Appending a name appends its item. */
  lemma {:induction false} NamesSnoc(usernames: seq<string>, name: string)
    ensures Names(usernames + [name]) == Names(usernames) + [Utf(name)]
  {
    if usernames != [] {
      assert (usernames + [name])[1..] == usernames[1..] + [name];
      NamesSnoc(usernames[1..], name);
    }
  }

  /** What one run of `initialConnect` does. */
  datatype Effect = Effect(
    written: seq<Item>,  // the values written to the output, in order
    flushed: bool,       // whether the output is flushed
    soTimeout: int,      // the read timeout left on the socket
    closed: bool,        // whether the socket is closed
    handedOff: bool,     // whether the socket is passed to `accepted`
    result: Result<()>)  // normal return, or the exception thrown

  /**
   * `initialConnect` once the intent byte is read (or not). The timeout is set before the
   * read; a read failure ends the run with nothing written. Otherwise the version comes
   * first whatever the code; code 0 clears the timeout and hands the socket on without
   * closing it, code 1 answers the ping, flushes and closes, and any other code is an
   * `IOException`.
   */
  function Handshake(read: Result<int>, v: Version, usernames: seq<string>): (e: Effect)
    ensures read.Err? ==> e.written == [] && e.result == Err(read.error)
    ensures read.Ok? ==> |e.written| >= 5 && e.written[..5] == VersionItems(v)
    ensures e.soTimeout == (if read == Ok(0) then 0 else TIMEOUT)
    ensures e.handedOff <==> read == Ok(0)
    ensures e.closed <==> read == Ok(1)
    ensures e.flushed <==> read == Ok(1)
    ensures e.result.Ok? <==> read == Ok(0) || read == Ok(1)
    ensures read.Ok? && read.value != 0 && read.value != 1 ==>
              e.result == Err(IO("Unrecognised connection code " + IntToString(read.value)))
    ensures read == Ok(1) ==> e.written == VersionItems(v) + [Int(|usernames|)] + Names(usernames)
    ensures read.Ok? && read.value != 1 ==> e.written == VersionItems(v)
  {
    match read
    case Err(error) => Effect([], false, TIMEOUT, false, false, Err(error))
    case Ok(code) =>
      if code == 0 then Effect(VersionItems(v), false, 0, false, true, Ok(()))
      else if code == 1 then
        Effect(VersionItems(v) + [Int(|usernames|)] + Names(usernames), true, TIMEOUT, true, false, Ok(()))
      else Effect(VersionItems(v), false, TIMEOUT, false, false,
                  Err(IO("Unrecognised connection code " + IntToString(code))))
  }

  /**
   * `Checker.call`: the handshake, with the socket closed after any exception. A socket is
   * left open exactly when it was handed on.
   */
  function Called(read: Result<int>, v: Version, usernames: seq<string>): (e: Effect)
    ensures e.closed <==> !e.handedOff
    ensures e.written == Handshake(read, v, usernames).written
    ensures e.handedOff == Handshake(read, v, usernames).handedOff
    ensures e.result.Ok?
  {
    var h := Handshake(read, v, usernames);
    h.(closed := h.closed || h.result.Err?, result := Ok(()))
  }

  /** A client's reading of `n` names from position `k`. */
  function NamesAt(items: seq<Item>, k: nat, n: nat): (r: Option<seq<string>>)
    ensures r.Some? ==> |r.value| == n
    decreases n
  {
    if n == 0 then Some([])
    else if k < |items| && items[k].Utf? then
      match NamesAt(items, k + 1, n - 1)
      case None => None
      case Some(rest) => Some([items[k].s] + rest)
    else None
  }

  /** The names read back from their items, whatever surrounds them. */
  lemma NamesRoundTrip(before: seq<Item>, usernames: seq<string>, after: seq<Item>)
    ensures NamesAt(before + Names(usernames) + after, |before|, |usernames|) == Some(usernames)
  {
    NamesInMiddle(before, usernames, after);
    NamesAtItems(before + Names(usernames) + after, |before|, usernames);
  }

  /** The items from position `k` on hold the names, one by one. */
  predicate HoldsNamesAt(items: seq<Item>, k: nat, usernames: seq<string>) {
    k + |usernames| <= |items| && forall i :: 0 <= i < |usernames| ==> items[k + i] == Utf(usernames[i])
  }

  /** The names' items sit one by one after `before`. */
  lemma NamesInMiddle(before: seq<Item>, usernames: seq<string>, after: seq<Item>)
    ensures HoldsNamesAt(before + Names(usernames) + after, |before|, usernames)
  {
    forall i | 0 <= i < |usernames|
      ensures (before + Names(usernames) + after)[|before| + i] == Utf(usernames[i])
    {
      IndexInMiddle(before, Names(usernames), after, i);
    }
  }

  lemma IndexInMiddle<T>(a: seq<T>, m: seq<T>, c: seq<T>, i: nat)
    requires i < |m|
    ensures (a + m + c)[|a| + i] == m[i]
  {
  }

  /** Items holding the names one by one from position `k` are read back as those names. */
  lemma {:induction false} NamesAtItems(items: seq<Item>, k: nat, usernames: seq<string>)
    requires HoldsNamesAt(items, k, usernames)
    ensures NamesAt(items, k, |usernames|) == Some(usernames)
    decreases |usernames|
  {
    if usernames != [] {
      assert items[k] == Utf(usernames[0]);
      forall i | 0 <= i < |usernames| - 1
        ensures items[k + 1 + i] == Utf(usernames[1..][i])
      {
        assert items[k + (i + 1)] == Utf(usernames[i + 1]);
      }
      NamesAtItems(items, k + 1, usernames[1..]);
      assert [usernames[0]] + usernames[1..] == usernames;
    }
  }

  /** A client's reading of the version at the front of the reply. */
  function VersionAt(items: seq<Item>): (r: Option<Version>)
    ensures r.Some? ==> |items| >= 5 && items[..5] == VersionItems(r.value)
  {
    if |items| >= 5 && items[0].Int? && items[1].Int? && items[2].Int? && items[3].Int? && items[4].Utf? then
      Some(Version(items[0].i, items[1].i, items[2].i, items[3].i, items[4].s))
    else None
  }

  /** A client's reading of a ping reply: the version, the count, then that many names. */
  function PingReplyAt(items: seq<Item>): (r: Option<(Version, seq<string>)>)
    ensures r.Some? ==> VersionAt(items) == Some(r.value.0) && |items| > 5 && items[5] == Int(|r.value.1|)
  {
    match VersionAt(items)
    case None => None
    case Some(v) =>
      if |items| > 5 && items[5].Int? && items[5].i >= 0 then
        match NamesAt(items, 6, items[5].i)
        case None => None
        case Some(names) => Some((v, names))
      else None
  }

  /** Every reply starts with a version the client reads back exactly. */
  lemma VersionReadBack(read: Result<int>, v: Version, usernames: seq<string>)
    requires read.Ok?
    ensures VersionAt(Handshake(read, v, usernames).written) == Some(v)
  {
    var w := Handshake(read, v, usernames).written;
    assert w[..5] == VersionItems(v);
    assert w[0] == Int(v.major) && w[4] == Utf(v.hash);
  }

  /** The reply to a ping gives the client the version and the player names, in order. */
  lemma PingReadBack(v: Version, usernames: seq<string>)
    ensures PingReplyAt(Handshake(Ok(1), v, usernames).written) == Some((v, usernames))
  {
    var w := Handshake(Ok(1), v, usernames).written;
    VersionReadBack(Ok(1), v, usernames);
    assert w == (VersionItems(v) + [Int(|usernames|)]) + Names(usernames) + [];
    NamesRoundTrip(VersionItems(v) + [Int(|usernames|)], usernames, []);
  }

  /** The socket of one incoming connection, with its two data streams. */
  class TransportSocket {
    var soTimeout: int
    var closed: bool
    const input: DataInput
    const output: DataOutput

    constructor (input: DataInput, output: DataOutput)
      ensures this.input == input && this.output == output
      ensures soTimeout == 0 && !closed
    {
      this.input := input;
      this.output := output;
      soTimeout := 0;
      closed := false;
    }

    method SetSoTimeout(ms: int)
      modifies this
      ensures soTimeout == ms && closed == old(closed)
    {
      soTimeout := ms;
    }

    method Close()
      modifies this
      ensures closed && soTimeout == old(soTimeout)
    {
      closed := true;
    }
  }

  /** The server's networking, as far as it receives sockets from the handshake. */
  class ServerNetworking {
    var accepted: seq<TransportSocket>

    constructor ()
      ensures accepted == []
    {
      accepted := [];
    }

    method Accepted(socket: TransportSocket)
      modifies this
      ensures accepted == old(accepted) + [socket]
    {
      accepted := accepted + [socket];
    }
  }

  /** `connect`: no read timeout from now on, and the socket goes to the server's networking. */
  method Connect(socket: TransportSocket, server: ServerNetworking)
    modifies socket, server
    ensures socket.soTimeout == 0 && socket.closed == old(socket.closed)
    ensures server.accepted == old(server.accepted) + [socket]
  {
    socket.SetSoTimeout(0);
    server.Accepted(socket);
  }

  /** `ping`: the number of connected players and each one's name, flushed; then the socket is closed. */
  method Ping(socket: TransportSocket, usernames: seq<string>)
    requires IsInt(|usernames|)
    modifies socket, socket.output
    ensures socket.output.items == old(socket.output.items) + [Int(|usernames|)] + Names(usernames)
    ensures socket.output.flushed && socket.closed && socket.soTimeout == old(socket.soTimeout)
  {
    var out := socket.output;
    out.WriteInt(|usernames|);
    for i := 0 to |usernames|
      invariant out.items == old(out.items) + [Int(|usernames|)] + Names(usernames[..i])
      invariant socket.soTimeout == old(socket.soTimeout) && socket.closed == old(socket.closed)
    {
      NamesSnoc(usernames[..i], usernames[i]);
      assert usernames[..i + 1] == usernames[..i] + [usernames[i]];
      out.WriteUtf(usernames[i]);
    }
    assert usernames[..|usernames|] == usernames;
    out.Flush();
    socket.Close();
  }

  /** The version at the head of every reply, as `initialConnect` writes it. */
  method WriteVersion(out: DataOutput, v: Version)
    requires ValidVersion(v)
    modifies out
    ensures out.items == old(out.items) + VersionItems(v) && out.flushed == old(out.flushed)
  {
    out.WriteInt(v.major);
    out.WriteInt(v.minor);
    out.WriteInt(v.point);
    out.WriteInt(v.build);
    out.WriteUtf(v.hash);
  }

  /** `initialConnect`, with the result and the new state of the socket, its streams and the server given by `Handshake`. */
  method InitialConnect(socket: TransportSocket, v: Version, usernames: seq<string>, server: ServerNetworking)
    returns (r: Result<()>)
    requires socket.input.pos <= |socket.input.items|
    requires ValidVersion(v) && IsInt(|usernames|)
    modifies socket, socket.input, socket.output, server
    ensures var e := Handshake(ByteAt(socket.input.items, old(socket.input.pos)), v, usernames);
      && r == e.result
      && socket.output.items == old(socket.output.items) + e.written
      && socket.output.flushed == (old(socket.output.flushed) || e.flushed)
      && socket.soTimeout == e.soTimeout
      && socket.closed == (old(socket.closed) || e.closed)
      && server.accepted == old(server.accepted) + (if e.handedOff then [socket] else [])
    ensures socket.input.pos <= |socket.input.items|
  {
    socket.SetSoTimeout(TIMEOUT);
    var read := socket.input.ReadByte();
    if read.Err? {
      return Err(read.error);
    }
    var code := read.value;
    if code == 0 {
      r := HandOff(socket, v, usernames, server);
    } else if code == 1 {
      r := AnswerPing(socket, v, usernames, server);
    } else {
      r := Refuse(socket, code, v, usernames, server);
    }
  }

  lemma ReplyAssoc<T>(a: seq<T>, b: seq<T>, c: seq<T>, d: seq<T>)
    ensures ((a + b) + c) + d == a + ((b + c) + d)
  {
  }

  /** `initialConnect` for code 0: the version, then the socket goes to the server's networking. */
  method HandOff(socket: TransportSocket, v: Version, usernames: seq<string>, server: ServerNetworking)
    returns (r: Result<()>)
    requires socket.soTimeout == TIMEOUT && ValidVersion(v)
    modifies socket, socket.output, server
    ensures var e := Handshake(Ok(0), v, usernames);
      && r == e.result
      && socket.output.items == old(socket.output.items) + e.written
      && socket.output.flushed == (old(socket.output.flushed) || e.flushed)
      && socket.soTimeout == e.soTimeout
      && socket.closed == (old(socket.closed) || e.closed)
      && server.accepted == old(server.accepted) + (if e.handedOff then [socket] else [])
  {
    WriteVersion(socket.output, v);
    Connect(socket, server);
    r := Ok(());
  }

  /** `initialConnect` for code 1: the version, then the ping reply. */
  method AnswerPing(socket: TransportSocket, v: Version, usernames: seq<string>, server: ServerNetworking)
    returns (r: Result<()>)
    requires socket.soTimeout == TIMEOUT && ValidVersion(v) && IsInt(|usernames|)
    modifies socket, socket.output
    ensures var e := Handshake(Ok(1), v, usernames);
      && r == e.result
      && socket.output.items == old(socket.output.items) + e.written
      && socket.output.flushed == (old(socket.output.flushed) || e.flushed)
      && socket.soTimeout == e.soTimeout
      && socket.closed == (old(socket.closed) || e.closed)
      && server.accepted == old(server.accepted) + (if e.handedOff then [socket] else [])
  {
    ghost var before := socket.output.items;
    WriteVersion(socket.output, v);
    Ping(socket, usernames);
    ReplyAssoc(before, VersionItems(v), [Int(|usernames|)], Names(usernames));
    r := Ok(());
  }

  /** `initialConnect` for any other code: the version, then an `IOException`. */
  method Refuse(socket: TransportSocket, code: int, v: Version, usernames: seq<string>, server: ServerNetworking)
    returns (r: Result<()>)
    requires code != 0 && code != 1
    requires socket.soTimeout == TIMEOUT && ValidVersion(v)
    modifies socket.output
    ensures var e := Handshake(Ok(code), v, usernames);
      && r == e.result
      && socket.output.items == old(socket.output.items) + e.written
      && socket.output.flushed == (old(socket.output.flushed) || e.flushed)
      && socket.soTimeout == e.soTimeout
      && socket.closed == (old(socket.closed) || e.closed)
      && server.accepted == old(server.accepted) + (if e.handedOff then [socket] else [])
  {
    WriteVersion(socket.output, v);
    r := Err(IO("Unrecognised connection code " + IntToString(code)));
  }

  /** `Checker.call`: runs the handshake, closes the socket after any exception, and returns null. */
  method Call(socket: TransportSocket, v: Version, usernames: seq<string>, server: ServerNetworking)
    returns (r: Option<()>)
    requires socket.input.pos <= |socket.input.items|
    requires ValidVersion(v) && IsInt(|usernames|)
    modifies socket, socket.input, socket.output, server
    ensures r.None?
    ensures var e := Called(ByteAt(socket.input.items, old(socket.input.pos)), v, usernames);
      && socket.output.items == old(socket.output.items) + e.written
      && socket.closed == (old(socket.closed) || e.closed)
      && server.accepted == old(server.accepted) + (if e.handedOff then [socket] else [])
  {
    var result := InitialConnect(socket, v, usernames, server);
    if result.Err? {
      socket.Close();
    }
    r := None;
  }
}
