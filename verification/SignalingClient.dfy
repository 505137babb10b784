/** The client's registration handshake, composed with the server over a network
    that loses datagrams. */
module SignalingClient {
  import opened Octets
  import opened HexKeys
  import opened Wire
  import opened EndpointText
  import opened Crypto
  import opened Signaling
  import PeerTable
  import SignalingProofs

  // ---- awaiting a reply -----------------------------------------------------

  predicate IsKind(data: Bytes, kind: byte) { Parse(data).Ok? && Parse(data).packet.kind == kind }

  /** One turn of await_packet's loop: the steady clock, and what the socket gave in
      the time that remained; None is a timeout. */
  datatype Look = Look(now: int, datagram: Option<Bytes>)

  /** The turns of one wait and its deadline. */
  datatype Wait = Wait(deadline: int, looks: seq<Look>)

  /** The first packet of the expected kind, unless the deadline passes or the socket
      times out before it. */
  function Await(wait: Wait, kind: byte): Option<Packet>
    decreases |wait.looks|
  {
    if wait.looks == [] || wait.looks[0].now >= wait.deadline then None else
      match wait.looks[0].datagram
      case None => None
      case Some(data) =>
        if IsKind(data, kind) then Some(Parse(data).packet) else Await(wait.(looks := wait.looks[1..]), kind)
  }

  /** await_packet. */
  method AwaitPacket(wait: Wait, kind: byte) returns (r: Option<Packet>)
    ensures r == Await(wait, kind)
  {
    hide Parse;
    var i := 0;
    while i < |wait.looks|
      invariant 0 <= i <= |wait.looks| && Await(wait.(looks := wait.looks[i..]), kind) == Await(wait, kind)
    {
      var look := wait.looks[i];
      if look.now >= wait.deadline { return None; }
      if look.datagram.None? { return None; }
      var parsed := ParsePacket(look.datagram.value);
      if parsed.Ok? && parsed.packet.kind == kind { return Some(parsed.packet); }
      assert wait.looks[i..][1..] == wait.looks[i + 1..];
      i := i + 1;
    }
    return None;
  }

  /** Datagrams of other kinds, all read before the deadline. */
  predicate NoneOf(looks: seq<Look>, deadline: int, kind: byte)
  {
    forall i :: 0 <= i < |looks| ==>
      looks[i].now < deadline && looks[i].datagram.Some? && !IsKind(looks[i].datagram.value, kind)
  }

  /** Unrelated datagrams are passed over. */
  lemma {:induction false} AwaitSkipsNoise(deadline: int, noise: seq<Look>, tail: seq<Look>, kind: byte)
    requires NoneOf(noise, deadline, kind)
    ensures Await(Wait(deadline, noise + tail), kind) == Await(Wait(deadline, tail), kind)
  {
    hide Parse;
    if noise == [] {
      assert noise + tail == tail;
    } else {
      assert (noise + tail)[1..] == noise[1..] + tail;
      AwaitSkipsNoise(deadline, noise[1..], tail, kind);
    }
  }

  /** Nothing is taken after the deadline, whatever arrives. */
  lemma {:induction false} AwaitEndsAtDeadline(deadline: int, looks: seq<Look>, late: seq<Look>, kind: byte)
    requires forall i :: 0 <= i < |late| ==> late[i].now >= deadline
    ensures Await(Wait(deadline, looks + late), kind) == Await(Wait(deadline, looks), kind)
  {
    hide Parse;
    if looks == [] {
      assert looks + late == late;
    } else {
      assert (looks + late)[1..] == looks[1..] + late;
      AwaitEndsAtDeadline(deadline, looks[1..], late, kind);
    }
  }

  /** A socket timeout ends the wait, whatever might have come later. */
  lemma AwaitEndsAtTimeout(deadline: int, noise: seq<Look>, now: int, later: seq<Look>, kind: byte)
    requires NoneOf(noise, deadline, kind)
    ensures Await(Wait(deadline, noise + ([Look(now, None)] + later)), kind) == None
  {
    AwaitSkipsNoise(deadline, noise, [Look(now, None)] + later, kind);
  }

  // ---- the network and the server behind it ---------------------------------

  datatype Fate = Delivered | Lost | Refused

  /** One client datagram and the server's answer to it: what the server handled
      before it, how the datagram fared (Refused: the local send failed), when it was
      handled and with what fresh challenge, whether the answer got back, when the
      client began to wait and when it heard the answer, and what else it read first. */
  datatype Hop = Hop(before: seq<SignalingProofs.Input>, fate: Fate, now: int, challenge: Bytes, answered: bool,
                     asked: int, heard: int, noise: seq<Look>)

  /** timeout is the timeout_ms given to register_self and discover. */
  datatype World = World(suite: Suite, config: Config, here: Endpoint, timeout: int)

  function Deadline(w: World, hop: Hop): int { hop.asked + w.timeout }

  function Absorb(w: World, s: Server, xs: seq<SignalingProofs.Input>): Server
    decreases |xs|
  {
    if xs == [] then s else Absorb(w, SignalingProofs.Step(w.suite, w.config, s, xs[0]).0, xs[1..])
  }

  /** The server after the hop, whether the send was accepted, and the wait for the
      answer. */
  function Travel(w: World, s: Server, hop: Hop, data: Bytes): (Server, bool, Wait)
  {
    var s0 := Absorb(w, s, hop.before);
    match hop.fate
    case Refused => (s0, false, Wait(Deadline(w, hop), []))
    case Lost => (s0, true, Wait(Deadline(w, hop), hop.noise))
    case Delivered =>
      var (s1, sent) := RunOnce(w.suite, w.config, s0, Some((data, w.here)), hop.now, hop.challenge);
      var answer := if hop.answered && sent.Some? && sent.value.0 == w.here
                    then [Look(hop.heard, Some(sent.value.1))] else [];
      (s1, true, Wait(Deadline(w, hop), hop.noise + answer))
  }

  class Link {
    const world: World
    var server: Server
    var inbox: Wait

    constructor (world: World, server: Server)
      ensures this.world == world && this.server == server
    {
      this.world, this.server, inbox := world, server, Wait(0, []);
    }

    method Send(data: Bytes, hop: Hop) returns (ok: bool)
      modifies this
      ensures (server, ok, inbox) == Travel(world, old(server), hop, data)
    {
      var (after, accepted, arrivals) := Travel(world, server, hop, data);
      server, ok, inbox := after, accepted, arrivals;
    }
  }

  // ---- registration ---------------------------------------------------------

  datatype Client = Client(publicKey: Bytes, sign: Bytes -> Bytes)

  function Request(k: Client): Bytes { Serialize(Plain(REGISTER, k.publicKey, [], [])) }
  function Signed(k: Client, challenge: Bytes): Bytes { Serialize(Plain(REGISTER, k.publicKey, [], k.sign(challenge))) }

  /** One round of the handshake: the acknowledgement, if it comes. */
  function TryOnce(w: World, k: Client, s: Server, hops: (Hop, Hop)): (Server, Option<Packet>)
  {
    var (s1, ok1, in1) := Travel(w, s, hops.0, Request(k));
    if !ok1 then (s1, None) else
      match Await(in1, HELLO)
      case None => (s1, None)
      case Some(hello) =>
        var (s2, ok2, in2) := Travel(w, s1, hops.1, Signed(k, hello.payload));
        if !ok2 then (s2, None) else (s2, Await(in2, ACK))
  }

  /** register_self: up to |rounds| rounds; the endpoint read from the ACK. */
  function Register(w: World, k: Client, s: Server, rounds: seq<(Hop, Hop)>): (Server, Option<Option<Endpoint>>)
    decreases |rounds|
  {
    if rounds == [] then (s, None) else
      var (s1, ack) := TryOnce(w, k, s, rounds[0]);
      if ack.Some? then (s1, Some(ParseEndpoint(ack.value.payload))) else Register(w, k, s1, rounds[1..])
  }

  class ClientObject {
    const client: Client
    var publicEndpoint: Option<Endpoint>

    constructor (client: Client)
      ensures this.client == client && publicEndpoint == None
    {
      this.client, publicEndpoint := client, None;
    }

    method TryRound(link: Link, hops: (Hop, Hop)) returns (ack: Option<Packet>)
      modifies link
      ensures (link.server, ack) == TryOnce(link.world, client, old(link.server), hops)
    {
      hide Await;
      hide Travel;
      var bytes := SerializePacket(Plain(REGISTER, client.publicKey, [], []));
      var ok := link.Send(bytes, hops.0);
      if !ok { return None; }
      var hello := AwaitPacket(link.inbox, HELLO);
      if hello.None? { return None; }
      bytes := SerializePacket(Plain(REGISTER, client.publicKey, [], client.sign(hello.value.payload)));
      ok := link.Send(bytes, hops.1);
      if !ok { return None; }
      ack := AwaitPacket(link.inbox, ACK);
    }

    method RegisterSelf(link: Link, rounds: seq<(Hop, Hop)>) returns (ok: bool)
      modifies this, link
      ensures var (s, got) := Register(link.world, client, old(link.server), rounds);
              && link.server == s && ok == got.Some?
              && publicEndpoint == (if ok then got.value else old(publicEndpoint))
    {
      hide TryOnce;
      hide ParseEndpoint;
      var i := 0;
      while i < |rounds|
        invariant 0 <= i <= |rounds| && publicEndpoint == old(publicEndpoint)
        invariant Register(link.world, client, link.server, rounds[i..]) ==
                    Register(link.world, client, old(link.server), rounds)
      {
        assert rounds[i..][1..] == rounds[i + 1..];
        var ack := TryRound(link, rounds[i]);
        if ack.Some? {
          publicEndpoint := ParseEndpoint(ack.value.payload);
          return true;
        }
        i := i + 1;
      }
      return false;
    }
  }

  // ---- loss tolerance -------------------------------------------------------

  /** A client that can sign, and sizes that fit a packet. */
  ghost predicate Able(w: World, k: Client)
  {
    && Correct(w.suite) && |k.publicKey| == PUBLIC_KEY_BYTES && FitsField(ToText(w.here))
    && forall m: Bytes :: w.suite.verify(k.sign(m), m, k.publicKey)
  }

  /** Nothing before the deadline disturbs the key's pending challenge. */
  predicate Harmless(xs: seq<SignalingProofs.Input>, key: Bytes, deadline: int)
  {
    forall i :: 0 <= i < |xs| ==>
      xs[i].now <= deadline && !(xs[i].Packeted? && xs[i].packet.kind == REGISTER && xs[i].packet.source == key)
  }

  /** The datagram and the answer to it both got through. */
  predicate Answered(hop: Hop) { hop.fate == Delivered && hop.answered }

  /** The answer, if it comes, is read before the deadline, after no other of its kind. */
  predicate OnTime(w: World, hop: Hop, kind: byte)
  {
    hop.heard < Deadline(w, hop) && NoneOf(hop.noise, Deadline(w, hop), kind)
  }

  /** The round is on time, and no other HELLO or ACK reaches the socket.  What the
      server does for others, before and during, is free. */
  predicate Fair(w: World, k: Client, hops: (Hop, Hop))
  {
    var deadline := hops.0.now + w.config.challengeTtl;
    && hops.1.now <= deadline && Harmless(hops.1.before, k.publicKey, deadline)
    && FitsField(hops.0.challenge) && OnTime(w, hops.0, HELLO) && OnTime(w, hops.1, ACK)
  }

  /** None of the round's four datagrams is lost. */
  predicate Clear(hops: (Hop, Hop))
  {
    Answered(hops.0) && Answered(hops.1)
  }

  lemma HarmlessStep(w: World, s: Server, x: SignalingProofs.Input, key: Bytes)
    requires Hex(key) in s.pending && Harmless([x], key, s.pending[Hex(key)].expiry)
    ensures var t := SignalingProofs.Step(w.suite, w.config, s, x).0;
            Hex(key) in t.pending && t.pending[Hex(key)] == s.pending[Hex(key)]
  {
    assert [x][0] == x;
    HexKeysAreFaithful();
    hide Hex;
    hide ToText;
    hide PeerTable.Expired;
    hide PeerTable.Lookup;
  }

  lemma {:induction false} HarmlessKeepsPending(w: World, s: Server, xs: seq<SignalingProofs.Input>, key: Bytes)
    requires Hex(key) in s.pending && Harmless(xs, key, s.pending[Hex(key)].expiry)
    ensures var t := Absorb(w, s, xs);
            Hex(key) in t.pending && t.pending[Hex(key)] == s.pending[Hex(key)]
    decreases |xs|
  {
    hide SignalingProofs.Step;
    hide Hex;
    if xs != [] {
      assert Harmless([xs[0]], key, s.pending[Hex(key)].expiry);
      HarmlessStep(w, s, xs[0], key);
      HarmlessKeepsPending(w, SignalingProofs.Step(w.suite, w.config, s, xs[0]).0, xs[1..], key);
    }
  }

  lemma ParsesBack(p: Packet)
    requires p.version == VERSION && p.Fits()
    ensures Parse(Serialize(p)) == Ok(p)
  {
    RoundTrip(p);
  }

  /** What the server makes of a request: the challenge pending, and sent. */
  lemma RequestIsChallenged(w: World, k: Client, s: Server, now: int, challenge: Bytes)
    requires Able(w, k)
    ensures var (t, sent) := RunOnce(w.suite, w.config, s, Some((Request(k), w.here)), now, challenge);
            && Hex(k.publicKey) in t.pending
            && t.pending[Hex(k.publicKey)] == Pending(challenge, w.here, now + w.config.challengeTtl)
            && sent == Some((w.here, Serialize(Plain(HELLO, [], [], challenge))))
  {
    ParsesBack(Plain(REGISTER, k.publicKey, [], []));
    hide Parse;
    hide Serialize;
    hide Hex;
    hide PeerTable.Expired;
  }

  /** What the server makes of the signed challenge: the key registered at the
      observed endpoint, and acknowledged. */
  lemma SignatureIsAcknowledged(w: World, k: Client, s: Server, now: int, challenge: Bytes, expiry: int,
                                nextChallenge: Bytes)
    requires Able(w, k) && now <= expiry
    requires Hex(k.publicKey) in s.pending && s.pending[Hex(k.publicKey)] == Pending(challenge, w.here, expiry)
    ensures var (t, sent) := RunOnce(w.suite, w.config, s, Some((Signed(k, challenge), w.here)), now, nextChallenge);
            && PeerTable.Lookup(t.registry, Hex(k.publicKey)) == Some(w.here)
            && sent == Some((w.here, Serialize(Plain(ACK, [], [], ToText(w.here)))))
  {
    assert w.suite.verify(k.sign(challenge), challenge, k.publicKey);
    ParsesBack(Plain(REGISTER, k.publicKey, [], k.sign(challenge)));
    hide Parse;
    hide Serialize;
    hide Hex;
    hide ToText;
  }

  lemma AwaitFinds(deadline: int, noise: seq<Look>, heard: int, p: Packet)
    requires p.version == VERSION && p.Fits() && heard < deadline && NoneOf(noise, deadline, p.kind)
    ensures Await(Wait(deadline, noise + [Look(heard, Some(Serialize(p)))]), p.kind) == Some(p)
    ensures Await(Wait(deadline, noise + []), p.kind) == None
    ensures Await(Wait(deadline, noise), p.kind) == None
  {
    ParsesBack(p);
    AwaitSkipsNoise(deadline, noise, [Look(heard, Some(Serialize(p)))], p.kind);
    AwaitSkipsNoise(deadline, noise, [], p.kind);
    assert noise + [] == noise;
  }

  /** What is read of a hop whose answer, if the server gives it, is one packet. */
  lemma HopIsHeard(w: World, s: Server, hop: Hop, data: Bytes, answer: Packet)
    requires answer.version == VERSION && answer.Fits() && OnTime(w, hop, answer.kind)
    requires RunOnce(w.suite, w.config, Absorb(w, s, hop.before), Some((data, w.here)), hop.now, hop.challenge).1
             == Some((w.here, Serialize(answer)))
    ensures var (t, ok, inbox) := Travel(w, s, hop, data);
            && (ok <==> hop.fate != Refused)
            && (ok ==> Await(inbox, answer.kind) == if Answered(hop) then Some(answer) else None)
            && (hop.fate == Delivered ==>
                  t == RunOnce(w.suite, w.config, Absorb(w, s, hop.before), Some((data, w.here)), hop.now,
                               hop.challenge).0)
  {
    hide RunOnce;
    hide Absorb;
    hide Serialize;
    AwaitFinds(Deadline(w, hop), hop.noise, hop.heard, answer);
    hide Await;
  }

  lemma FirstHop(w: World, k: Client, s: Server, hop: Hop)
    requires Able(w, k) && FitsField(hop.challenge) && OnTime(w, hop, HELLO)
    ensures var (t, ok, inbox) := Travel(w, s, hop, Request(k));
            && (ok ==> Await(inbox, HELLO) ==
                         if Answered(hop) then Some(Plain(HELLO, [], [], hop.challenge)) else None)
            && (ok <==> hop.fate != Refused)
            && (hop.fate == Delivered ==> Hex(k.publicKey) in t.pending)
            && (hop.fate == Delivered ==>
                  t.pending[Hex(k.publicKey)] == Pending(hop.challenge, w.here, hop.now + w.config.challengeTtl))
  {
    hide Travel;
    hide Await;
    hide RunOnce;
    hide Absorb;
    hide Able;
    hide Hex;
    RequestIsChallenged(w, k, Absorb(w, s, hop.before), hop.now, hop.challenge);
    HopIsHeard(w, s, hop, Request(k), Plain(HELLO, [], [], hop.challenge));
  }

  lemma SecondHop(w: World, k: Client, s: Server, hop: Hop, challenge: Bytes, expiry: int)
    requires Able(w, k) && OnTime(w, hop, ACK) && hop.now <= expiry && Harmless(hop.before, k.publicKey, expiry)
    requires Hex(k.publicKey) in s.pending && s.pending[Hex(k.publicKey)] == Pending(challenge, w.here, expiry)
    ensures var (t, ok, inbox) := Travel(w, s, hop, Signed(k, challenge));
            && (ok ==> Await(inbox, ACK) ==
                         if Answered(hop) then Some(Plain(ACK, [], [], ToText(w.here))) else None)
            && (ok <==> hop.fate != Refused)
            && (hop.fate == Delivered ==> PeerTable.Lookup(t.registry, Hex(k.publicKey)) == Some(w.here))
  {
    assert FitsField(ToText(w.here));
    hide Travel;
    hide Await;
    hide RunOnce;
    hide Absorb;
    hide Able;
    hide ToText;
    hide Hex;
    HarmlessKeepsPending(w, s, hop.before, k.publicKey);
    SignatureIsAcknowledged(w, k, Absorb(w, s, hop.before), hop.now, challenge, expiry, hop.challenge);
    HopIsHeard(w, s, hop, Signed(k, challenge), Plain(ACK, [], [], ToText(w.here)));
  }

  /** A round is acknowledged exactly when it is clear, and then the server holds the
      key at the endpoint the ACK names. */
  lemma RoundSucceedsIffClear(w: World, k: Client, s: Server, hops: (Hop, Hop))
    requires Able(w, k) && Fair(w, k, hops)
    ensures TryOnce(w, k, s, hops).1.Some? <==> Clear(hops)
    ensures Clear(hops) ==>
              var (t, ack) := TryOnce(w, k, s, hops);
              ack.value.payload == ToText(w.here) && PeerTable.Lookup(t.registry, Hex(k.publicKey)) == Some(w.here)
  {
    hide Able;
    hide Travel;
    hide Await;
    hide Request;
    hide Signed;
    hide Harmless;
    hide ToText;
    hide Hex;
    FirstHop(w, k, s, hops.0);
    if hops.0.fate == Delivered {
      SecondHop(w, k, Travel(w, s, hops.0, Request(k)).0, hops.1, hops.0.challenge, hops.0.now + w.config.challengeTtl);
    }
  }

  /** Loss tolerance.  register_self succeeds exactly when some round loses none of
      its four datagrams, and then the server holds the client's key at the endpoint
      it observed, which is what the client learns. */
  lemma {:induction false} LossTolerance(w: World, k: Client, s: Server, rounds: seq<(Hop, Hop)>)
    requires Able(w, k) && forall i :: 0 <= i < |rounds| ==> Fair(w, k, rounds[i])
    ensures Register(w, k, s, rounds).1.Some? <==> exists i :: 0 <= i < |rounds| && Clear(rounds[i])
    ensures Register(w, k, s, rounds).1.Some? ==>
              var (t, got) := Register(w, k, s, rounds);
              got.value == Some(w.here) && PeerTable.Lookup(t.registry, Hex(k.publicKey)) == Some(w.here)
    decreases |rounds|
  {
    hide TryOnce;
    hide Able;
    hide Fair;
    hide Clear;
    hide Hex;
    if rounds != [] {
      RoundSucceedsIffClear(w, k, s, rounds[0]);
      EndpointRoundTrip(w.here);
      hide ParseEndpoint;
      hide ToText;
      if !Clear(rounds[0]) {
        LossTolerance(w, k, TryOnce(w, k, s, rounds[0]).0, rounds[1..]);
        assert forall i :: 0 < i < |rounds| ==> rounds[i] == rounds[1..][i - 1];
      }
    }
  }

  // ---- discovery ------------------------------------------------------------

  function Query(target: Bytes): Bytes { Serialize(Plain(DISCOVER, [], target, [])) }

  /** discover: (responded, endpoint) after up to |hops| queries. */
  function Discover(w: World, target: Bytes, s: Server, hops: seq<Hop>): (Server, bool, Option<Endpoint>)
    decreases |hops|
  {
    if hops == [] then (s, false, None) else
      var (s1, ok, inbox) := Travel(w, s, hops[0], Query(target));
      var answer := if ok then Await(inbox, CONNECT) else None;
      if answer.Some? then (s1, true, ParseEndpoint(answer.value.payload)) else Discover(w, target, s1, hops[1..])
  }

  method DiscoverPeer(link: Link, target: Bytes, hops: seq<Hop>) returns (responded: bool, endpoint: Option<Endpoint>)
    modifies link
    ensures (link.server, responded, endpoint) == Discover(link.world, target, old(link.server), hops)
  {
    hide Travel;
    hide Await;
    hide ParseEndpoint;
    var i := 0;
    while i < |hops|
      invariant 0 <= i <= |hops|
      invariant Discover(link.world, target, link.server, hops[i..]) ==
                  Discover(link.world, target, old(link.server), hops)
    {
      assert hops[i..][1..] == hops[i + 1..];
      var bytes := SerializePacket(Plain(DISCOVER, [], target, []));
      var ok := link.Send(bytes, hops[i]);
      i := i + 1;
      if ok {
        var answer := AwaitPacket(link.inbox, CONNECT);
        if answer.Some? { return true, ParseEndpoint(answer.value.payload); }
      }
    }
    return false, None;
  }

  /** No other CONNECT reaches the socket, and registered endpoints fit a packet. */
  ghost predicate Answerable(w: World, s: Server, hop: Hop)
  {
    && OnTime(w, hop, CONNECT)
    && forall key :: key in Absorb(w, s, hop.before).registry ==>
         FitsField(ToText(Absorb(w, s, hop.before).registry[key].endpoint))
  }

  /** One query: an answer exactly when both datagrams get through, and the answer
      is the endpoint registered when the query was handled. */
  lemma QueryAnswered(w: World, target: Bytes, s: Server, hop: Hop)
    requires target != [] && FitsField(target) && Answerable(w, s, hop)
    ensures var (_, ok, inbox) := Travel(w, s, hop, Query(target));
            var answer := if ok then Await(inbox, CONNECT) else None;
            var known := PeerTable.Lookup(Absorb(w, s, hop.before).registry, Hex(target));
            (answer.Some? <==> Answered(hop)) && (answer.Some? ==> ParseEndpoint(answer.value.payload) == known)
  {
    var s0 := Absorb(w, s, hop.before);
    var q := Plain(DISCOVER, [], target, []);
    QueryIsHandled(w, target, s0, hop.now, hop.challenge);
    ReplyFits(s0, q, w.here);
    SignalingProofs.DiscoveryDecodes(w.suite, w.config, s0, q, w.here, hop.now, hop.challenge);
    assert Handle(w.suite, w.config, s0, q, w.here, hop.now, hop.challenge).1 == HandleDiscover(s0, q, w.here);
    hide RunOnce;
    hide Absorb;
    hide Handle;
    hide HandleDiscover;
    hide Travel;
    hide Await;
    hide Serialize;
    hide ParseEndpoint;
    hide Hex;
    HopIsHeard(w, s, hop, Query(target), HandleDiscover(s0, q, w.here).value.packet);
  }

  lemma QueryIsHandled(w: World, target: Bytes, s: Server, now: int, challenge: Bytes)
    requires target != [] && FitsField(target)
    ensures var reply := HandleDiscover(s, Plain(DISCOVER, [], target, []), w.here);
            && reply.Some? && reply.value.to == w.here
            && RunOnce(w.suite, w.config, s, Some((Query(target), w.here)), now, challenge).1 ==
                 Some((w.here, Serialize(reply.value.packet)))
  {
    ParsesBack(Plain(DISCOVER, [], target, []));
    hide Parse;
    hide Serialize;
    hide Sweep;
    hide Hex;
  }

  lemma ReplyFits(s: Server, q: Packet, from: Endpoint)
    requires q.destination != [] && FitsField(q.destination)
    requires forall key :: key in s.registry ==> FitsField(ToText(s.registry[key].endpoint))
    ensures var p := HandleDiscover(s, q, from).value.packet; p.version == VERSION && p.Fits()
  {
    hide ToText;
    hide Hex;
  }

  /** The server when the i-th query reaches it. */
  function ServerAt(w: World, target: Bytes, s: Server, hops: seq<Hop>, i: nat): Server
    requires i < |hops|
    decreases i
  {
    if i == 0 then Absorb(w, s, hops[0].before)
    else ServerAt(w, target, Travel(w, s, hops[0], Query(target)).0, hops[1..], i - 1)
  }

  /** All the servers met on the way answer in packets that fit. */
  ghost predicate AllAnswerable(w: World, target: Bytes, s: Server, hops: seq<Hop>)
    decreases |hops|
  {
    hops != [] ==>
      Answerable(w, s, hops[0]) && AllAnswerable(w, target, Travel(w, s, hops[0], Query(target)).0, hops[1..])
  }

  /** The first query that gets through and is answered. */
  function FirstAnswered(hops: seq<Hop>): (r: Option<nat>)
    ensures r.Some? ==> r.value < |hops| && Answered(hops[r.value])
    ensures r.Some? ==> forall j :: 0 <= j < r.value ==> !Answered(hops[j])
    ensures r.None? ==> forall j :: 0 <= j < |hops| ==> !Answered(hops[j])
  {
    if hops == [] then None
    else if Answered(hops[0]) then Some(0)
    else match FirstAnswered(hops[1..])
      case None => None
      case Some(i) => Some(i + 1)
  }

  /** discover responds exactly when some query and its answer both get through, and
      reports what the registry held when the first such query was handled. */
  lemma {:induction false} DiscoveryTolerance(w: World, target: Bytes, s: Server, hops: seq<Hop>)
    requires target != [] && FitsField(target) && AllAnswerable(w, target, s, hops)
    ensures var (_, responded, endpoint) := Discover(w, target, s, hops);
            match FirstAnswered(hops)
            case None => !responded && endpoint == None
            case Some(i) =>
              responded && endpoint == PeerTable.Lookup(ServerAt(w, target, s, hops, i).registry, Hex(target))
    decreases |hops|
  {
    hide Travel;
    hide Await;
    hide Answerable;
    hide Answered;
    hide ParseEndpoint;
    hide Absorb;
    hide Query;
    hide Hex;
    if hops != [] {
      QueryAnswered(w, target, s, hops[0]);
      if !Answered(hops[0]) {
        DiscoveryTolerance(w, target, Travel(w, s, hops[0], Query(target)).0, hops[1..]);
      }
    }
  }
}
