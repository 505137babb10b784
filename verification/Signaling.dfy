/** The signaling server: proof-of-ownership registration, discovery, CONNECT
    forwarding, liveness. */
module Signaling {
  import opened Octets
  import opened HexKeys
  import opened Wire
  import opened EndpointText
  import opened Crypto
  import PeerTable

  datatype Config = Config(peerTtl: nat, challengeTtl: nat)

  datatype Pending = Pending(challenge: Bytes, endpoint: Endpoint, expiry: int)

  /** Both maps are keyed by Hex(public key). */
  datatype Server = Server(pending: map<string, Pending>, registry: PeerTable.Table)

  const EMPTY: Server := Server(map[], map[])

  datatype Outgoing = Outgoing(to: Endpoint, packet: Packet)

  /** Step one issues the challenge it is given; step two verifies the signature of
      the pending challenge, from the endpoint it was sent to, before it expires. */
  function HandleRegister(c: Suite, cfg: Config, s: Server, p: Packet, from: Endpoint, now: int, challenge: Bytes)
      : (Server, Option<Outgoing>)
  {
    var key := Hex(p.source);
    if |p.source| != PUBLIC_KEY_BYTES then (s, None)
    else if p.payload == [] then
      (s.(pending := s.pending[key := Pending(challenge, from, now + cfg.challengeTtl)]),
       Some(Outgoing(from, Plain(HELLO, [], [], challenge))))
    else if |p.payload| != SIGNATURE_BYTES then (s, None)
    else if key !in s.pending || s.pending[key].expiry < now then (s, None)
    else if s.pending[key].endpoint != from then (s, None)
    else if !c.verify(p.payload, s.pending[key].challenge, p.source) then (s.(pending := s.pending - {key}), None)
    else
      (Server(s.pending - {key}, s.registry[key := PeerTable.Entry(from, now)]),
       Some(Outgoing(from, Plain(ACK, [], [], ToText(from)))))
  }

  function HandleDiscover(s: Server, p: Packet, from: Endpoint): Option<Outgoing>
  {
    if p.destination == [] then None else
      var payload := match PeerTable.Lookup(s.registry, Hex(p.destination))
                     case None => []
                     case Some(endpoint) => ToText(endpoint);
      Some(Outgoing(from, Plain(CONNECT, p.destination, [], payload)))
  }

  function HandleConnect(s: Server, p: Packet): Option<Outgoing>
  {
    if p.destination == [] then None else
      match PeerTable.Lookup(s.registry, Hex(p.destination))
      case None => None
      case Some(endpoint) => Some(Outgoing(endpoint, p))
  }

  function HandleHeartbeat(s: Server, p: Packet, from: Endpoint, now: int): (Server, Option<Outgoing>)
  {
    var key := Hex(p.source);
    var s1 := if |p.source| == PUBLIC_KEY_BYTES && key in s.registry
              then s.(registry := s.registry[key := PeerTable.Entry(from, now)]) else s;
    (s1, Some(Outgoing(from, Plain(HEARTBEAT, [], [], []))))
  }

  function HandleDisconnect(s: Server, p: Packet): Server
  {
    if |p.source| == PUBLIC_KEY_BYTES then s.(registry := s.registry - {Hex(p.source)}) else s
  }

  function Handle(c: Suite, cfg: Config, s: Server, p: Packet, from: Endpoint, now: int, challenge: Bytes)
      : (Server, Option<Outgoing>)
  {
    if p.kind == REGISTER then HandleRegister(c, cfg, s, p, from, now, challenge)
    else if p.kind == DISCOVER then (s, HandleDiscover(s, p, from))
    else if p.kind == CONNECT then (s, HandleConnect(s, p))
    else if p.kind == HEARTBEAT then HandleHeartbeat(s, p, from, now)
    else if p.kind == DISCONNECT then (HandleDisconnect(s, p), None)
    else (s, None)
  }

  function Sweep(cfg: Config, s: Server, now: int): Server
  {
    Server(map key | key in s.pending && s.pending[key].expiry >= now :: s.pending[key],
           PeerTable.Expired(s.registry, now - cfg.peerTtl))
  }

  /** run_once: at most one datagram, then a sweep. */
  function RunOnce(c: Suite, cfg: Config, s: Server, datagram: Option<(Bytes, Endpoint)>, now: int, challenge: Bytes)
      : (Server, Option<(Endpoint, Bytes)>)
  {
    match datagram
    case None => (Sweep(cfg, s, now), None)
    case Some((data, from)) =>
      match Parse(data)
      case Err(_) => (Sweep(cfg, s, now), None)
      case Ok(p) =>
        var (s1, reply) := Handle(c, cfg, s, p, from, now, challenge);
        (Sweep(cfg, s1, now), if reply.Some? then Some((reply.value.to, Serialize(reply.value.packet))) else None)
  }

  // ---- the object -----------------------------------------------------------

  class SignalingServer {
    const suite: Suite
    const config: Config
    const registry: PeerTable.PeerTableObject
    var pending: map<string, Pending>

    function View(): Server
      reads this, registry
    {
      Server(pending, registry.peers)
    }

    constructor (suite: Suite, config: Config)
      ensures this.suite == suite && this.config == config && fresh(registry) && View() == EMPTY
    {
      this.suite, this.config := suite, config;
      registry := new PeerTable.PeerTableObject();
      pending := map[];
    }

    method Register(p: Packet, from: Endpoint, now: int, challenge: Bytes) returns (out: Option<Outgoing>)
      modifies this, registry
      ensures (View(), out) == HandleRegister(suite, config, old(View()), p, from, now, challenge)
    {
      if |p.source| != PUBLIC_KEY_BYTES { return None; }
      var key := ToHex(p.source);
      if |p.payload| == 0 {
        pending := pending[key := Pending(challenge, from, now + config.challengeTtl)];
        return Some(Outgoing(from, Plain(HELLO, [], [], challenge)));
      }
      if |p.payload| == SIGNATURE_BYTES {
        if key !in pending || pending[key].expiry < now { return None; }
        if pending[key].endpoint.host != from.host || pending[key].endpoint.port != from.port { return None; }
        if !suite.verify(p.payload, pending[key].challenge, p.source) {
          pending := pending - {key};
          return None;
        }
        registry.Upsert(key, from, now);
        pending := pending - {key};
        return Some(Outgoing(from, Plain(ACK, [], [], ToText(from))));
      }
      return None;
    }

    method Discover(p: Packet, from: Endpoint) returns (out: Option<Outgoing>)
      ensures out == HandleDiscover(View(), p, from)
    {
      if |p.destination| == 0 { return None; }
      var key := ToHex(p.destination);
      var endpoint := registry.Find(key);
      var payload := if endpoint.Some? then ToText(endpoint.value) else [];
      return Some(Outgoing(from, Plain(CONNECT, p.destination, [], payload)));
    }

    method Connect(p: Packet) returns (out: Option<Outgoing>)
      ensures out == HandleConnect(View(), p)
    {
      if |p.destination| == 0 { return None; }
      var key := ToHex(p.destination);
      var endpoint := registry.Find(key);
      if endpoint.None? { return None; }
      return Some(Outgoing(endpoint.value, p));
    }

    method Heartbeat(p: Packet, from: Endpoint, now: int) returns (out: Option<Outgoing>)
      modifies registry
      ensures (View(), out) == HandleHeartbeat(old(View()), p, from, now)
    {
      if |p.source| == PUBLIC_KEY_BYTES {
        var key := ToHex(p.source);
        var endpoint := registry.Find(key);
        if endpoint.Some? { registry.Upsert(key, from, now); }
      }
      return Some(Outgoing(from, Plain(HEARTBEAT, [], [], [])));
    }

    method Disconnect(p: Packet)
      modifies registry
      ensures View() == HandleDisconnect(old(View()), p)
    {
      if |p.source| == PUBLIC_KEY_BYTES {
        var key := ToHex(p.source);
        var _ := registry.Remove(key);
      }
    }

    method HandlePacket(p: Packet, from: Endpoint, now: int, challenge: Bytes) returns (out: Option<Outgoing>)
      modifies this, registry
      ensures (View(), out) == Handle(suite, config, old(View()), p, from, now, challenge)
    {
      hide HandleRegister;
      hide HandleDiscover;
      hide HandleConnect;
      hide HandleHeartbeat;
      hide HandleDisconnect;
      out := None;
      if p.kind == REGISTER {
        out := Register(p, from, now, challenge);
      } else if p.kind == DISCOVER {
        out := Discover(p, from);
      } else if p.kind == CONNECT {
        out := Connect(p);
      } else if p.kind == HEARTBEAT {
        out := Heartbeat(p, from, now);
      } else if p.kind == DISCONNECT {
        Disconnect(p);
      }
    }

    /** Both erase-while-iterating loops. */
    method Expire(now: int)
      modifies this, registry
      ensures View() == Sweep(config, old(View()), now)
    {
      registry.Expire(now - config.peerTtl);
      var todo := pending.Keys;
      ghost var was := pending;
      while todo != {}
        invariant todo <= pending.Keys <= was.Keys
        invariant registry.peers == PeerTable.Expired(old(registry.peers), now - config.peerTtl)
        invariant forall key :: key in was && key in todo ==> key in pending
        invariant forall key :: key in was && key !in todo ==> (key in pending <==> was[key].expiry >= now)
        invariant forall key :: key in pending ==> pending[key] == was[key]
        decreases |todo|
      {
        var key :| key in todo;
        if pending[key].expiry < now { pending := pending - {key}; }
        todo := todo - {key};
      }
    }

    method Once(datagram: Option<(Bytes, Endpoint)>, now: int, challenge: Bytes)
        returns (processed: bool, sent: Option<(Endpoint, Bytes)>)
      modifies this, registry
      ensures (View(), sent) == RunOnce(suite, config, old(View()), datagram, now, challenge)
      ensures processed == (datagram.Some? && Parse(datagram.value.0).Ok?)
    {
      hide Handle;
      hide Sweep;
      hide Parse;
      processed, sent := false, None;
      if datagram.Some? {
        var parsed := ParsePacket(datagram.value.0);
        if parsed.Ok? {
          var out := HandlePacket(parsed.packet, datagram.value.1, now, challenge);
          if out.Some? {
            var bytes := SerializePacket(out.value.packet);
            sent := Some((out.value.to, bytes));
          }
          processed := true;
        }
      }
      Expire(now);
    }
  }
}
