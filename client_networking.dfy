/**
 * The client's networking session: its state, the heartbeat counter and ping flag, the
 * queues of the connection monitor, and the dispatch of received packets.
 */
module ClientNetworking {
  import opened Wrappers
  import opened JavaInts
  import opened PacketHandlers

  datatype NetworkingState = Stopped | Starting | Running | Stopping

  /** The connection monitor: not yet made, running, or disposed. */
  datatype Monitor = NoMonitor | Active | Disposed

  /** The menu `update` shows once the session is no longer running. */
  datatype DisconnectedMenu = DisconnectedMenu(cause: Option<Exception>)

  const PING_SECONDS: int := 10

  const PACKET_CONNECT: Packet := Packet("PacketConnect", "ethanjones.cubes.networking.packets")
  const PACKET_PING_REQUEST: Packet := Packet("PacketPingRequest", "ethanjones.cubes.networking.packets")

  /** `PING_TICKS`: the ticks in ten seconds, for a tick of `tickMs` milliseconds. */
  function PingTicks(tickMs: int): (r: int)
    requires 0 < tickMs <= 1000
    ensures 10 <= r <= 10000
  {
    PING_SECONDS * (1000 / tickMs)
  }

  /** What the heartbeat does on a tick. */
  datatype Heartbeat = Idle | SendPing | NoPingResponse

  /** The heartbeat on the tick that brought the counter to `tick`. */
  function HeartbeatAt(tick: int, pingTicks: int, awaiting: bool): (r: Heartbeat)
    requires pingTicks > 0
    ensures r == Idle <==> tick % pingTicks != 0
    ensures r == NoPingResponse <==> tick % pingTicks == 0 && awaiting
  {
    if tick % pingTicks != 0 then Idle
    else if awaiting then NoPingResponse
    else SendPing
  }

  /** Counting from zero, the heartbeat acts every `pingTicks` ticks, and a ping still
      unanswered at the next boundary ends the session. */
  lemma HeartbeatPeriod(k: nat, pingTicks: int)
    requires pingTicks > 0
    ensures HeartbeatAt(k * pingTicks, pingTicks, false) == SendPing
    ensures HeartbeatAt((k + 1) * pingTicks, pingTicks, true) == NoPingResponse
    ensures forall j :: k * pingTicks < j < (k + 1) * pingTicks ==> HeartbeatAt(j, pingTicks, true) == Idle
  {
    ModUnique(k * pingTicks, pingTicks, k, 0);
    ModUnique((k + 1) * pingTicks, pingTicks, k + 1, 0);
    forall j | k * pingTicks < j < (k + 1) * pingTicks
      ensures HeartbeatAt(j, pingTicks, true) == Idle
    {
      var d := j - k * pingTicks;
      assert (k + 1) * pingTicks == k * pingTicks + pingTicks;
      ModUnique(j, pingTicks, k, d);
    }
  }

  class Session {
    var state: NetworkingState
    var monitor: Monitor
    var chain: Option<Handler>
    var socketOpen: bool
    var exception: Option<Exception>
    var tickCount: int
    var awaitingPingResponse: bool
    const pingTicks: int
    /** The connection monitor's outbound and inbound packet queues. */
    var outbound: seq<Packet>
    var inbound: seq<Packet>
    /** What dispatching received packets has done so far, and the menus shown. */
    var effects: seq<Effect>
    var menus: seq<DisconnectedMenu>

    ghost predicate Valid()
      reads this
    {
      pingTicks > 0 && IsInt(tickCount)
      && (monitor != NoMonitor ==> chain == Some(ClientChain()))
      && (state == Running ==> monitor == Active)
    }

    constructor (tickMs: int)
      requires 0 < tickMs <= 1000
      ensures Valid()
      ensures state == Stopped && monitor == NoMonitor && chain == None && !socketOpen
      ensures exception == None && tickCount == 0 && !awaitingPingResponse
      ensures pingTicks == PingTicks(tickMs)
      ensures outbound == [] && inbound == [] && effects == [] && menus == []
    {
      state := Stopped;
      monitor := NoMonitor;
      chain := None;
      socketOpen := false;
      exception := None;
      tickCount := 0;
      awaitingPingResponse := false;
      pingTicks := PingTicks(tickMs);
      outbound := [];
      inbound := [];
      effects := [];
      menus := [];
    }

    /** `preInit`: enters `Starting`, opens the socket and runs the client handshake; a failed
        handshake closes the socket again and is passed on. */
    method PreInit(open: Result<()>, handshake: Result<()>) returns (r: Result<()>)
      requires Valid()
      modifies this
      ensures Valid() && state == Starting
      ensures open.Err? ==> r == open && socketOpen == old(socketOpen)
      ensures open.Ok? ==> r == handshake && socketOpen == handshake.Ok?
      ensures monitor == old(monitor) && chain == old(chain) && exception == old(exception)
      ensures tickCount == old(tickCount) && awaitingPingResponse == old(awaitingPingResponse)
      ensures outbound == old(outbound) && inbound == old(inbound) && effects == old(effects) && menus == old(menus)
    {
      state := Starting;
      if open.Err? {
        return open;
      }
      socketOpen := true;
      if handshake.Err? {
        socketOpen := false;
      }
      r := handshake;
    }

    /** `init`: starts a new monitor, enters `Running`, builds the handler chain and queues the
        connect packet. */
    method Init()
      requires Valid()
      modifies this
      ensures Valid()
      ensures state == Running && monitor == Active && chain == Some(ClientChain())
      ensures outbound == [PACKET_CONNECT] && inbound == []
      ensures socketOpen == old(socketOpen) && exception == old(exception)
      ensures tickCount == old(tickCount) && awaitingPingResponse == old(awaitingPingResponse)
      ensures effects == old(effects) && menus == old(menus)
    {
      // A new monitor comes with empty queues of its own.
      monitor := Active;
      outbound := [];
      inbound := [];
      state := Running;
      chain := Some(ClientChain());
      SendPacketToServer(PACKET_CONNECT);
    }

    /** `sendPacketToServer`: queues the packet while running and drops it otherwise. */
    method SendPacketToServer(p: Packet)
      requires Valid()
      modifies this
      ensures Valid()
      ensures outbound == old(outbound) + (if state == Running then [p] else [])
      ensures state == old(state) && monitor == old(monitor) && chain == old(chain)
      ensures socketOpen == old(socketOpen) && exception == old(exception)
      ensures tickCount == old(tickCount) && awaitingPingResponse == old(awaitingPingResponse)
      ensures inbound == old(inbound) && effects == old(effects) && menus == old(menus)
    {
      if state != Running {
        return;
      }
      outbound := outbound + [p];
    }

    /** `stop`: from `Running` only, enters `Stopping` and disposes the monitor. */
    method Stop()
      requires Valid()
      modifies this
      ensures Valid()
      ensures old(state) == Running ==> state == Stopping && monitor == Disposed
      ensures old(state) != Running ==> state == old(state) && monitor == old(monitor)
      ensures chain == old(chain) && socketOpen == old(socketOpen) && exception == old(exception)
      ensures tickCount == old(tickCount) && awaitingPingResponse == old(awaitingPingResponse)
      ensures outbound == old(outbound) && inbound == old(inbound) && effects == old(effects) && menus == old(menus)
    {
      if state != Running {
        return;
      }
      state := Stopping;
      monitor := Disposed;
    }

    /**
     * `disconnected`: ignored while stopping; otherwise records the cause, logs the remote address of
     * the monitor it is given and stops. `caller` is that monitor, `NoMonitor` standing for `null`:
     * reading its socket then throws a `NullPointerException` after the cause is recorded and
     * before `stop` runs.
     */
    method Disconnected(caller: Monitor, e: Exception) returns (r: Result<()>)
      requires Valid()
      modifies this
      ensures Valid()
      ensures old(state) == Stopping ==> r.Ok? && state == Stopping && exception == old(exception) && monitor == old(monitor)
      ensures old(state) != Stopping ==> exception == Some(e)
      ensures r.Err? <==> old(state) != Stopping && caller == NoMonitor
      ensures r.Err? ==> r.error == NullPointer && state == old(state) && monitor == old(monitor)
      ensures r.Ok? && old(state) == Running ==> state == Stopping && monitor == Disposed
      ensures old(state) != Running ==> state == old(state) && monitor == old(monitor)
      ensures chain == old(chain) && socketOpen == old(socketOpen)
      ensures tickCount == old(tickCount) && awaitingPingResponse == old(awaitingPingResponse)
      ensures outbound == old(outbound) && inbound == old(inbound) && effects == old(effects) && menus == old(menus)
    {
      if state == Stopping {
        return Ok(());
      }
      exception := Some(e);
      if caller == NoMonitor {
        return Err(NullPointer);
      }
      Stop();
      r := Ok(());
    }

    /**
     * `update`: shows the disconnected menu when not running, counts the tick, and at each ping
     * boundary either sends a ping or, with one still unanswered, disconnects with the session's own
     * monitor, which fails as `disconnected` does when there is none.
     */
    method Update() returns (r: Result<()>)
      requires Valid()
      modifies this
      ensures Valid()
      ensures menus == old(menus) + (if old(state) != Running then [DisconnectedMenu(old(exception))] else [])
      ensures tickCount == Wrap32(old(tickCount) + 1)
      ensures r.Err? <==> HeartbeatAt(tickCount, pingTicks, old(awaitingPingResponse)) == NoPingResponse
                          && old(state) != Stopping && old(monitor) == NoMonitor
      ensures r.Err? ==> r.error == NullPointer
      ensures HeartbeatAt(tickCount, pingTicks, old(awaitingPingResponse)) == Idle ==>
        (state == old(state) && monitor == old(monitor) && exception == old(exception)
         && awaitingPingResponse == old(awaitingPingResponse) && outbound == old(outbound))
      ensures HeartbeatAt(tickCount, pingTicks, old(awaitingPingResponse)) == SendPing ==>
        (state == old(state) && monitor == old(monitor) && exception == old(exception) && awaitingPingResponse
         && outbound == old(outbound) + (if old(state) == Running then [PACKET_PING_REQUEST] else []))
      ensures HeartbeatAt(tickCount, pingTicks, old(awaitingPingResponse)) == NoPingResponse ==>
        (awaitingPingResponse && outbound == old(outbound)
         && (old(state) == Stopping ==> state == Stopping && exception == old(exception))
         && (old(state) != Stopping ==> exception == Some(Cubes("No ping response")))
         && (old(state) == Running ==> state == Stopping && monitor == Disposed)
         && (old(state) != Running ==> state == old(state) && monitor == old(monitor)))
      ensures chain == old(chain) && socketOpen == old(socketOpen)
      ensures inbound == old(inbound) && effects == old(effects)
    {
      if state != Running {
        menus := menus + [DisconnectedMenu(exception)];
      }
      tickCount := Wrap32(tickCount + 1);
      r := Ok(());
      if tickCount % pingTicks == 0 {
        if awaitingPingResponse {
          r := Disconnected(monitor, Cubes("No ping response"));
        } else {
          awaitingPingResponse := true;
          SendPacketToServer(PACKET_PING_REQUEST);
        }
      }
    }

    /** `processPackets`: drains the inbound queue in order, passing each packet once
        through the handler chain; without a monitor it fails as the Java code does. */
    method ProcessPackets() returns (r: Result<()>)
      requires Valid()
      modifies this
      ensures Valid()
      ensures old(monitor) == NoMonitor ==> r == Err(NullPointer) && inbound == old(inbound) && effects == old(effects)
      ensures old(monitor) != NoMonitor ==>
        r.Ok? && inbound == [] && effects == old(effects) + DispatchAll(ClientChain(), old(inbound))
      ensures state == old(state) && monitor == old(monitor) && chain == old(chain)
      ensures socketOpen == old(socketOpen) && exception == old(exception)
      ensures tickCount == old(tickCount) && awaitingPingResponse == old(awaitingPingResponse)
      ensures outbound == old(outbound) && menus == old(menus)
    {
      if monitor == NoMonitor {
        return Err(NullPointer);
      }
      var handlers := chain.value;
      while |inbound| > 0
        invariant Valid() && chain == old(chain) && handlers == ClientChain()
        invariant state == old(state) && monitor == old(monitor)
        invariant socketOpen == old(socketOpen) && exception == old(exception)
        invariant tickCount == old(tickCount) && awaitingPingResponse == old(awaitingPingResponse)
        invariant outbound == old(outbound) && menus == old(menus)
        invariant effects + DispatchAll(handlers, inbound) == old(effects) + DispatchAll(handlers, old(inbound))
        decreases |inbound|
      {
        var packet := inbound[0];
        inbound := inbound[1..];
        var result := Handle(handlers, packet);
        effects := effects + result.1;
      }
      r := Ok(());
    }
  }
}
