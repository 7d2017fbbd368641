/**
 * The chain of responsibility that dispatches received packets: each handler either
 * handles a packet or passes it to its successor.
 */
module PacketHandlers {
  import opened Wrappers
  import opened JavaStrings

  /** A packet, by the simple name and the package of its class. */
  datatype Packet = Packet(simpleName: string, packageName: string)

  /** The package fragment that marks a gameplay packet. */
  const GAMEPLAY_PACKAGE: string := "networking.packets"

  predicate IsGameplay(p: Packet) {
    Contains(p.packageName, GAMEPLAY_PACKAGE)
  }

  /** What handling a packet does besides returning: the packet's own `handlePacket`, or the
      fallback's "unhandled" warning. */
  datatype Effect = HandlePacket(p: Packet) | Unhandled(p: Packet)

  /**
   * The four handlers. `Validation` and `Direction` only forward: the first just logs, and
   * the second's check of the packet's direction lies outside this model.
   */
  datatype Kind = Validation | Direction | Gameplay | Fallback

  /** A handler and the successor it holds, if any. */
  datatype Handler = Handler(kind: Kind, next: Option<Handler>)

  /** `setNext`: the handler with its successor replaced. */
  function SetNext(h: Handler, n: Handler): (r: Handler)
    ensures r.kind == h.kind && r.next == Some(n)
  {
    h.(next := Some(n))
  }

  /** `BasePacketHandler.handle`: the successor's answer, or false when there is none. */
  function Forward(h: Handler, p: Packet): (r: (bool, seq<Effect>))
    decreases h, 0
  {
    match h.next
    case None => (false, [])
    case Some(n) => Handle(n, p)
  }

  /** `handle` of a handler of each kind: whether the packet was handled, and the effects. */
  function Handle(h: Handler, p: Packet): (r: (bool, seq<Effect>))
    decreases h, 1
  {
    match h.kind
    case Validation => Forward(h, p)
    case Direction => Forward(h, p)
    case Gameplay => if IsGameplay(p) then (true, [HandlePacket(p)]) else Forward(h, p)
    case Fallback => (false, [Unhandled(p)])
  }

  /** In any chain, a packet reported handled is a gameplay packet whose `handlePacket` is
      the one effect, and the `handlePacket` of a packet reported unhandled is never called. */
  lemma {:induction false} HandledMeansGameplay(h: Handler, p: Packet)
    ensures Handle(h, p).0 ==> IsGameplay(p) && Handle(h, p).1 == [HandlePacket(p)]
    ensures |Handle(h, p).1| <= 1
    ensures forall e :: e in Handle(h, p).1 ==> e.p == p && (e.HandlePacket? <==> Handle(h, p).0)
    decreases h
  {
    var forwards := h.kind != Fallback && !(h.kind == Gameplay && IsGameplay(p));
    if forwards && h.next.Some? {
      assert Handle(h, p) == Handle(h.next.value, p);
      HandledMeansGameplay(h.next.value, p);
    }
  }

  /** The fallback answers false and reports the packet, whatever successor it holds. */
  lemma FallbackNeverForwards(n: Option<Handler>, p: Packet)
    ensures Handle(Handler(Fallback, n), p) == (false, [Unhandled(p)])
  {
  }

  /** The chain the client builds: validation, direction, gameplay, fallback. */
  function ClientChain(): (r: Handler)
    ensures r.kind == Validation
  {
    var fallback := Handler(Fallback, None);
    var gameplay := SetNext(Handler(Gameplay, None), fallback);
    var direction := SetNext(Handler(Direction, None), gameplay);
    SetNext(Handler(Validation, None), direction)
  }

  /** The client chain handles a gameplay packet by its `handlePacket` and reports any
      other one as unhandled: each packet has exactly one effect. */
  lemma ClientChainDispatch(p: Packet)
    ensures Handle(ClientChain(), p) ==
      if IsGameplay(p) then (true, [HandlePacket(p)]) else (false, [Unhandled(p)])
  {
  }

  /** The effects of passing each of `ps` through the chain `h`, in order. */
  function DispatchAll(h: Handler, ps: seq<Packet>): (r: seq<Effect>)
  {
    if |ps| == 0 then [] else Handle(h, ps[0]).1 + DispatchAll(h, ps[1..])
  }

  /** The effect the client chain has on one packet. */
  function ClientEffect(p: Packet): (r: Effect)
    ensures r.p == p
    ensures r.HandlePacket? <==> IsGameplay(p)
  {
    if IsGameplay(p) then HandlePacket(p) else Unhandled(p)
  }

  /** Draining packets through the client chain gives one effect per packet, in arrival order. */
  lemma {:induction false} ClientDispatchAll(ps: seq<Packet>)
    ensures |DispatchAll(ClientChain(), ps)| == |ps|
    ensures forall k :: 0 <= k < |ps| ==> DispatchAll(ClientChain(), ps)[k] == ClientEffect(ps[k])
  {
    if |ps| > 0 {
      ClientChainDispatch(ps[0]);
      ClientDispatchAll(ps[1..]);
      var rest := DispatchAll(ClientChain(), ps[1..]);
      assert DispatchAll(ClientChain(), ps) == [ClientEffect(ps[0])] + rest;
      forall k | 0 <= k < |ps|
        ensures DispatchAll(ClientChain(), ps)[k] == ClientEffect(ps[k])
      {
        if k > 0 {
          assert DispatchAll(ClientChain(), ps)[k] == rest[k - 1];
          assert ps[1..][k - 1] == ps[k];
        }
      }
    }
  }
}
