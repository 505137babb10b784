/** The messaging engine as a machine: its state, and what each entry point does
    with the clock readings, send results and datagrams it is given. */
module EngineModel {
  import opened Octets
  import opened HexKeys
  import opened Wire
  import opened EndpointText
  import opened StoreCodec
  import opened Crypto
  import opened Sessions
  import Storage

  const ACCEPT: byte := 1
  const REJECT: byte := 0
  const MAX_PROBES: int := 12
  const PROBE_INTERVAL: int := 250

  datatype Probe = Probe(peer: Bytes, candidate: Endpoint, confirmed: bool, attempts: int, last: int)

  const BLANK_PROBE: Probe := Probe([], Endpoint([], 0), false, 0, 0)
  const BLANK_CONTACT: Contact := Contact([], [], PENDING, 0)

  /** Sessions, endpoints, probes and requests are keyed by Hex(peer). */
  datatype Engine = Engine(
    self: Bytes, secret: Bytes, relay: Option<Endpoint>,
    sessions: map<string, Session>, endpoints: map<string, Endpoint>, probes: map<string, Probe>,
    incoming: set<string>, outgoing: set<string>, db: Db)

  datatype Datagram = Datagram(from: Endpoint, data: Bytes)

  /** One call of an entry point together with what the outside world contributes
      to it: nonce is the AEAD nonce, ok the result of the socket send, now the
      wall clock (seconds), clock the steady clock (milliseconds).  Restart stands
      for the end of the process and a new one that opens the same store. */
  datatype Input =
    | AddPeer(peer: Bytes, endpoint: Endpoint)
    | SetNickname(peer: Bytes, name: Bytes)
    | SendContactRequest(peer: Bytes, endpoint: Endpoint, greeting: Bytes, nonce: Bytes, ok: bool)
    | AcceptContact(peer: Bytes, nonce: Bytes, ok: bool)
    | RejectContact(peer: Bytes, nonce: Bytes, ok: bool)
    | Send(peer: Bytes, plaintext: Bytes, nonce: Bytes, ok: bool, now: i64)
    | SetRelay(endpoint: Endpoint)
    | Connect(peer: Bytes, endpoint: Endpoint, clock: int)
    | Tick(clock: int)
    | Poll(datagram: Option<Datagram>, now: i64, clock: int)
    | Restart

  /** The callbacks. */
  datatype Event =
    | MessageDelivered(peer: Bytes, plaintext: Bytes)
    | RequestSurfaced(peer: Bytes, greeting: Bytes)
    | ResponseSurfaced(peer: Bytes, accepted: bool)

  datatype Outgoing = Outgoing(to: Endpoint, packet: Packet)
  datatype ProbeTo = ProbeTo(peer: Bytes, to: Endpoint)

  /** The new state and everything observable about the call: its result, the
      probes sent (by key, at most one per peer), the sealed packet handed to the
      socket, and the callback made. */
  datatype Out = Out(st: Engine, ret: bool, probes: map<string, ProbeTo>, packet: Option<Outgoing>,
                     event: Option<Event>)

  function Quiet(e: Engine, ret: bool): Out { Out(e, ret, map[], None, None) }

  // ---- start-up -------------------------------------------------------------

  function RequestKeys(qs: seq<Request>): set<string>
  {
    set q | q in qs :: Hex(q.peer)
  }

  /** A fresh engine that has opened a store holding db. */
  function Boot(self: Bytes, secret: Bytes, db: Db): Engine
  {
    Engine(self, secret, None, map[], map[], map[], RequestKeys(db.requests), {}, db)
  }

  // ---- contacts and sessions ------------------------------------------------

  function ContactOr(db: Db, peer: Bytes): Contact
  {
    match Storage.Find(db.contacts, peer)
    case None => BLANK_CONTACT
    case Some(c) => c
  }

  function Trusted(db: Db, peer: Bytes, trust: byte): Contact
  {
    ContactOr(db, peer).(publicKey := peer, trust := trust)
  }

  function Named(db: Db, peer: Bytes, name: Bytes): Contact
  {
    ContactOr(db, peer).(publicKey := peer, nickname := name)
  }

  function SetTrust(db: Db, peer: Bytes, trust: byte): (r: Db)
    ensures Storage.TrustOf(r, peer) == Some(trust)
    ensures var found := Storage.Find(db.contacts, peer);
            Storage.Find(r.contacts, peer) ==
              Some(if found.Some? then found.value.(trust := trust) else Contact(peer, [], trust, 0))
  {
    Storage.UpsertContact(db, Trusted(db, peer, trust))
  }

  function Rename(db: Db, peer: Bytes, name: Bytes): (r: Db)
    ensures var found := Storage.Find(db.contacts, peer);
            Storage.Find(r.contacts, peer) ==
              Some(if found.Some? then found.value.(nickname := name) else Contact(peer, name, PENDING, 0))
    ensures Storage.TrustOf(db, peer).Some? ==> Storage.TrustOf(r, peer) == Storage.TrustOf(db, peer)
    ensures Storage.TrustOf(db, peer).None? ==> Storage.TrustOf(r, peer) == Some(PENDING)
  {
    Storage.UpsertContact(db, Named(db, peer, name))
  }

  /** ensure_session: None when key agreement with the peer fails. */
  function EnsureSession(c: Suite, e: Engine, peer: Bytes): (r: Option<Engine>)
    ensures r.Some? ==> Hex(peer) in r.value.sessions && r.value == e.(sessions := r.value.sessions)
  {
    var key := Hex(peer);
    if key in e.sessions then Some(e) else
      var s := New(c, e.self, e.secret, peer);
      if s.key.None? then None else Some(e.(sessions := e.sessions[key := s]))
  }

  predicate HasSession(c: Suite, e: Engine, peer: Bytes) { EnsureSession(c, e, peer).Some? }

  function SealFor(c: Suite, e: Engine, peer: Bytes, kind: byte, plaintext: Bytes, nonce: Bytes): (Engine, Packet)
    requires Hex(peer) in e.sessions
  {
    var (s, p) := EncryptAs(c, e.sessions[Hex(peer)], kind, plaintext, nonce);
    (e.(sessions := e.sessions[Hex(peer) := s]), p)
  }

  /** send_packet: the known endpoint, else the relay, else nothing is sent. */
  function SendPacket(e: Engine, peer: Bytes, p: Packet, ok: bool): (Option<Outgoing>, bool)
  {
    var key := Hex(peer);
    if key in e.endpoints then (Some(Outgoing(e.endpoints[key], p)), ok)
    else if e.relay.Some? then (Some(Outgoing(e.relay.value, p)), ok)
    else (None, false)
  }

  /** Seal and hand to the socket: the end of every sending entry point. */
  function SealAndSend(c: Suite, e: Engine, peer: Bytes, kind: byte, plaintext: Bytes, nonce: Bytes, ok: bool): (o: Out)
    requires Hex(peer) in e.sessions
    ensures o.st == e.(sessions := o.st.sessions) && o.event == None && o.probes == map[]
  {
    var (e1, p) := SealFor(c, e, peer, kind, plaintext, nonce);
    var (sent, ret) := SendPacket(e1, peer, p, ok);
    Out(e1, ret, map[], sent, None)
  }

  // ---- the entry points -----------------------------------------------------

  function DoAddPeer(c: Suite, e: Engine, peer: Bytes, endpoint: Endpoint): Out
  {
    match EnsureSession(c, e, peer)
    case None => Quiet(e, false)
    case Some(e1) =>
      Quiet(e1.(endpoints := e1.endpoints[Hex(peer) := endpoint], db := SetTrust(e1.db, peer, ACCEPTED)), true)
  }

  function DoSendContactRequest(c: Suite, e: Engine, peer: Bytes, endpoint: Endpoint, greeting: Bytes, nonce: Bytes,
                                ok: bool): Out
  {
    if Storage.TrustOf(e.db, peer) == Some(ACCEPTED) then Quiet(e, false) else
      match EnsureSession(c, e, peer)
      case None => Quiet(e, false)
      case Some(e1) =>
        var e2 := e1.(endpoints := e1.endpoints[Hex(peer) := endpoint],
                      outgoing := e1.outgoing + {Hex(peer)},
                      db := SetTrust(e1.db, peer, PENDING));
        SealAndSend(c, e2, peer, CONTACT_REQUEST, greeting, nonce, ok)
  }

  /** accept_contact and reject_contact differ in the trust they set and the byte
      they send. */
  function DoAnswer(c: Suite, e: Engine, peer: Bytes, trust: byte, answer: byte, nonce: Bytes, ok: bool): Out
  {
    if Hex(peer) !in e.incoming then Quiet(e, false) else
      match EnsureSession(c, e, peer)
      case None => Quiet(e, false)
      case Some(e1) =>
        var db := e1.db.(requests := Storage.Without(e1.db.requests, peer));
        var e2 := e1.(incoming := e1.incoming - {Hex(peer)}, db := SetTrust(db, peer, trust));
        SealAndSend(c, e2, peer, CONTACT_RESPONSE, [answer], nonce, ok)
  }

  function DoSend(c: Suite, e: Engine, peer: Bytes, plaintext: Bytes, nonce: Bytes, ok: bool, now: i64): Out
  {
    if Storage.TrustOf(e.db, peer) != Some(ACCEPTED) then Quiet(e, false) else
      match EnsureSession(c, e, peer)
      case None => Quiet(e, false)
      case Some(e1) =>
        var o := SealAndSend(c, e1, peer, MESSAGE, plaintext, nonce, ok);
        if !o.ret then o else
          o.(st := o.st.(db := o.st.db.(messages := o.st.db.messages + [Message(peer, plaintext, true, now)])))
  }

  /** The call touched nothing but probes and endpoints. */
  predicate OnlyPaths(e: Engine, o: Out)
  {
    o.ret && o.st == e.(probes := o.st.probes, endpoints := o.st.endpoints) && o.event == None && o.packet == None
  }

  // ---- hole punching --------------------------------------------------------

  predicate Confirmed(e: Engine, key: string) { key in e.probes && e.probes[key].confirmed }

  function ProbeOr(e: Engine, key: string): Probe
  {
    if key in e.probes then e.probes[key] else BLANK_PROBE
  }

  /** A HELLO with a destination; the destination tells it from an announce. */
  function ProbePacket(self: Bytes, peer: Bytes): Packet { Plain(HELLO, self, peer, []) }

  /** start_probing: nothing when a direct path is already confirmed. */
  function StartProbing(e: Engine, peer: Bytes, candidate: Endpoint, clock: int): (o: Out)
    ensures o.ret && o.st == e.(probes := o.st.probes) && o.event == None && o.packet == None
  {
    var key := Hex(peer);
    if Confirmed(e, key) then Quiet(e, true) else
      var p := ProbeOr(e, key).(peer := peer, candidate := candidate, last := clock, attempts := 1);
      Out(e.(probes := e.probes[key := p]), true, map[key := ProbeTo(peer, candidate)], None, None)
  }

  function DoConnect(e: Engine, peer: Bytes, candidate: Endpoint, clock: int): (o: Out)
    ensures OnlyPaths(e, o)
  {
    var active := if e.relay.Some? then e.relay.value else candidate;
    StartProbing(e.(endpoints := e.endpoints[Hex(peer) := active]), peer, candidate, clock)
  }

  predicate Due(p: Probe, clock: int)
  {
    !p.confirmed && p.attempts < MAX_PROBES && clock - p.last >= PROBE_INTERVAL
  }

  function Reprobed(p: Probe, clock: int): Probe
  {
    if Due(p, clock) then p.(attempts := p.attempts + 1, last := clock) else p
  }

  /** The probes due among some of the peers. */
  function DueProbes(probes: map<string, Probe>, keys: set<string>, clock: int): map<string, ProbeTo>
  {
    map key | key in keys && key in probes && Due(probes[key], clock) ::
      ProbeTo(probes[key].peer, probes[key].candidate)
  }

  function DoTick(e: Engine, clock: int): (o: Out)
    ensures OnlyPaths(e, o)
  {
    var probes := map key | key in e.probes :: Reprobed(e.probes[key], clock);
    Out(e.(probes := probes), true, DueProbes(e.probes, e.probes.Keys, clock), None, None)
  }

  /** A probe addressed to us: the path to the peer is confirmed, and answered once. */
  function HandleProbe(e: Engine, peer: Bytes, from: Endpoint): (o: Out)
    ensures OnlyPaths(e, o)
  {
    var key := Hex(peer);
    var p := ProbeOr(e, key);
    var e1 := e.(probes := e.probes[key := p.(peer := peer, confirmed := true)],
                 endpoints := e.endpoints[key := from]);
    Out(e1, true, if p.confirmed then map[] else map[key := ProbeTo(peer, from)], None, None)
  }

  /** A peer's endpoint, advertised through signaling. */
  function HandleConnect(e: Engine, peer: Bytes, payload: Bytes, clock: int): (o: Out)
    ensures OnlyPaths(e, o)
  {
    match ParseEndpoint(payload)
    case None => Quiet(e, true)
    case Some(candidate) =>
      var key := Hex(peer);
      var e1 := if key !in e.endpoints && e.relay.Some?
                then e.(endpoints := e.endpoints[key := e.relay.value]) else e;
      StartProbing(e1, peer, candidate, clock)
  }

  // ---- receiving ------------------------------------------------------------

  /** The spam gate, the session and the decryption: the state they leave, and the
      plaintext if the packet is let in.  A session made on the way stays. */
  function Admit(c: Suite, e: Engine, p: Packet): (r: (Engine, Option<Bytes>))
    ensures r.0 == e.(sessions := r.0.sessions)
    ensures r.1.Some? && p.kind == MESSAGE ==> Storage.TrustOf(e.db, p.source) == Some(ACCEPTED)
  {
    if p.kind == MESSAGE && Storage.TrustOf(e.db, p.source) != Some(ACCEPTED) then (e, None) else
      match EnsureSession(c, e, p.source)
      case None => (e, None)
      case Some(e1) =>
        var key := Hex(p.source);
        var (s, plaintext) := Decrypt(c, e1.sessions[key], p);
        (e1.(sessions := e1.sessions[key := s]), plaintext)
  }

  /** Follow the peer's address, but never away from a confirmed direct path. */
  function TrackAddress(e: Engine, peer: Bytes, from: Endpoint): (r: Engine)
    ensures r == e.(endpoints := r.endpoints)
  {
    if Confirmed(e, Hex(peer)) then e else e.(endpoints := e.endpoints[Hex(peer) := from])
  }

  function HandleMessage(e: Engine, peer: Bytes, plaintext: Bytes, now: i64): Out
  {
    var db := e.db.(messages := e.db.messages + [Message(peer, plaintext, false, now)]);
    Out(e.(db := db), true, map[], None, Some(MessageDelivered(peer, plaintext)))
  }

  /** One-request rule: only the first request of an unknown peer is surfaced. */
  function HandleContactRequest(e: Engine, peer: Bytes, greeting: Bytes, now: i64): (o: Out)
    ensures o.ret && o.probes == map[] && o.packet == None
  {
    if Storage.TrustOf(e.db, peer).Some? || Hex(peer) in e.incoming then Quiet(e, true) else
      var db1 := SetTrust(e.db, peer, PENDING);
      var db2 := if greeting == [] then db1 else Rename(db1, peer, greeting);
      var db3 := Storage.Apply(db2, Storage.AddRequest(Request(peer, greeting, now)));
      Out(e.(incoming := e.incoming + {Hex(peer)}, db := db3), true, map[], None, Some(RequestSurfaced(peer, greeting)))
  }

  function HandleContactResponse(e: Engine, peer: Bytes, decision: Bytes): (o: Out)
    ensures o.ret && o.probes == map[] && o.packet == None
  {
    if Hex(peer) !in e.outgoing then Quiet(e, true) else
      var accepted := decision != [] && decision[0] == ACCEPT;
      var db := SetTrust(e.db, peer, if accepted then ACCEPTED else REJECTED);
      Out(e.(outgoing := e.outgoing - {Hex(peer)}, db := db), true, map[], None, Some(ResponseSurfaced(peer, accepted)))
  }

  function Dispatch(e: Engine, p: Packet, plaintext: Bytes, now: i64): Out
  {
    if p.kind == MESSAGE then HandleMessage(e, p.source, plaintext, now)
    else if p.kind == CONTACT_REQUEST then HandleContactRequest(e, p.source, plaintext, now)
    else if p.kind == CONTACT_RESPONSE then HandleContactResponse(e, p.source, plaintext)
    else Quiet(e, false)
  }

  function Receive(c: Suite, e: Engine, p: Packet, from: Endpoint, now: i64): Out
  {
    var (e1, plaintext) := Admit(c, e, p);
    match plaintext
    case None => Quiet(e1, false)
    case Some(text) => Dispatch(TrackAddress(e1, p.source, from), p, text, now)
  }

  function HandlePacket(c: Suite, e: Engine, p: Packet, from: Endpoint, now: i64, clock: int): Out
  {
    if p.kind == HELLO then
      if p.destination == e.self && p.source != [] then HandleProbe(e, p.source, from) else Quiet(e, true)
    else if p.kind == CONNECT then HandleConnect(e, p.source, p.payload, clock)
    else Receive(c, e, p, from, now)
  }

  function DoPoll(c: Suite, e: Engine, datagram: Option<Datagram>, now: i64, clock: int): Out
  {
    match datagram
    case None => Quiet(e, false)
    case Some(d) =>
      match Parse(d.data)
      case Err(_) => Quiet(e, false)
      case Ok(p) => HandlePacket(c, e, p, d.from, now, clock)
  }

  function Step(c: Suite, e: Engine, x: Input): Out
  {
    match x
    case AddPeer(peer, endpoint) => DoAddPeer(c, e, peer, endpoint)
    case SetNickname(peer, name) => Quiet(e.(db := Rename(e.db, peer, name)), true)
    case SendContactRequest(peer, endpoint, greeting, nonce, ok) =>
      DoSendContactRequest(c, e, peer, endpoint, greeting, nonce, ok)
    case AcceptContact(peer, nonce, ok) => DoAnswer(c, e, peer, ACCEPTED, ACCEPT, nonce, ok)
    case RejectContact(peer, nonce, ok) => DoAnswer(c, e, peer, REJECTED, REJECT, nonce, ok)
    case Send(peer, plaintext, nonce, ok, now) => DoSend(c, e, peer, plaintext, nonce, ok, now)
    case SetRelay(endpoint) => Quiet(e.(relay := Some(endpoint)), true)
    case Connect(peer, candidate, clock) => DoConnect(e, peer, candidate, clock)
    case Tick(clock) => DoTick(e, clock)
    case Poll(datagram, now, clock) => DoPoll(c, e, datagram, now, clock)
    case Restart => Quiet(Boot(e.self, e.secret, e.db), true)
  }

  // ---- runs -----------------------------------------------------------------

  /** One step of a run, with the state before it. */
  datatype Entry = Entry(pre: Engine, x: Input, out: Out)

  /** The state after n steps. */
  function At(first: Engine, run: seq<Entry>, n: nat): Engine
    requires n <= |run|
  {
    if n == 0 then first else run[n - 1].out.st
  }

  ghost predicate IsStep(c: Suite, first: Engine, run: seq<Entry>, i: nat)
    requires i < |run|
  {
    run[i].pre == At(first, run, i) && run[i].out == Step(c, run[i].pre, run[i].x)
  }

  /** A run: each step starts where the one before it ended. */
  ghost predicate IsRun(c: Suite, first: Engine, run: seq<Entry>)
  {
    forall i :: 0 <= i < |run| ==> IsStep(c, first, run, i)
  }

  /** The packet a poll step works on, if it received one that parses. */
  function Polled(x: Input): Option<Packet>
  {
    if x.Poll? && x.datagram.Some? && Parse(x.datagram.value.data).Ok?
    then Some(Parse(x.datagram.value.data).packet) else None
  }
}
