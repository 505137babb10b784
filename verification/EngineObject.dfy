/** The Engine object of engine.cpp: maps and sets updated in place, a store that
    saves itself, and a socket whose results are arguments.  Each entry point is
    proved to take its step of the EngineModel machine. */
module EngineObject {
  import opened Octets
  import opened HexKeys
  import opened Wire
  import opened EndpointText
  import opened StoreCodec
  import opened Crypto
  import opened EngineModel
  import Sessions
  import Storage
  import StoreObject
  import EngineLedger
  import EngineTrust
  import EngineStore

  /** One datagram handed to the socket. */
  datatype Sent = Sent(to: Endpoint, data: Bytes)

  function SentPacket(p: Option<Outgoing>): seq<Sent>
  {
    match p
    case None => []
    case Some(o) => [Sent(o.to, Serialize(o.packet))]
  }

  function SentProbe(self: Bytes, p: ProbeTo): Sent
  {
    Sent(p.to, Serialize(ProbePacket(self, p.peer)))
  }

  /** The datagrams are the probes, one each, in some order. */
  ghost predicate AreProbes(self: Bytes, probes: map<string, ProbeTo>, sent: seq<Sent>, order: seq<string>)
  {
    && |order| == |sent|
    && (forall i, j :: 0 <= i < j < |order| ==> order[i] != order[j])
    && (forall key :: key in order <==> key in probes)
    && (forall i :: 0 <= i < |order| ==> order[i] in probes && sent[i] == SentProbe(self, probes[order[i]]))
  }

  lemma AreProbesNil(self: Bytes, probes: map<string, Probe>, clock: int)
    ensures AreProbes(self, DueProbes(probes, {}, clock), [], [])
  {
  }

  lemma AreProbesSnoc(self: Bytes, probes: map<string, Probe>, keys: set<string>, clock: int,
                      sent: seq<Sent>, order: seq<string>, key: string)
    requires AreProbes(self, DueProbes(probes, keys, clock), sent, order) && key !in keys && key in probes
    ensures var after := DueProbes(probes, keys + {key}, clock);
            var p := probes[key];
            if Due(p, clock)
            then AreProbes(self, after, sent + [SentProbe(self, ProbeTo(p.peer, p.candidate))], order + [key])
            else AreProbes(self, after, sent + [], order)
  {
    hide SentProbe;
    hide Due;
    var before, after := DueProbes(probes, keys, clock), DueProbes(probes, keys + {key}, clock);
    assert forall k :: k in before ==> k in after && after[k] == before[k];
    if Due(probes[key], clock) {
      assert forall k :: k in after ==> k in before || k == key;
    } else {
      assert after == before && sent + [] == sent;
    }
  }

  /** The probes with those of the peers in done repeated if they were due. */
  ghost predicate Repeated(was: map<string, Probe>, probes: map<string, Probe>, done: set<string>, clock: int)
  {
    && probes.Keys == was.Keys
    && forall key :: key in was ==> probes[key] == if key in done then Reprobed(was[key], clock) else was[key]
  }

  lemma RepeatedNone(was: map<string, Probe>, clock: int)
    ensures Repeated(was, was, {}, clock)
  {
  }

  lemma RepeatedNext(was: map<string, Probe>, probes: map<string, Probe>, done: set<string>, clock: int, key: string)
    requires Repeated(was, probes, done, clock) && key in was && key !in done
    ensures key in probes && probes[key] == was[key]
    ensures Repeated(was, probes[key := Reprobed(probes[key], clock)], done + {key}, clock)
  {
    hide Reprobed;
  }

  lemma RepeatedAll(was: map<string, Probe>, probes: map<string, Probe>, clock: int)
    requires Repeated(was, probes, was.Keys, clock)
    ensures probes == map key | key in was :: Reprobed(was[key], clock)
  {
    hide Reprobed;
  }

  class EngineObject {
    const suite: Suite
    const localPublic: Bytes
    const localSecret: Bytes
    const contacts: StoreObject.Store

    var relay: Option<Endpoint>
    var sessions: map<string, Sessions.Session>
    var endpoints: map<string, Endpoint>
    var probes: map<string, Probe>
    var incoming: set<string>
    var outgoing: set<string>

    ghost function View(): Engine
      reads this, contacts
    {
      Engine(localPublic, localSecret, relay, sessions, endpoints, probes, incoming, outgoing, contacts.Db())
    }

    /** The engine with its store's record. */
    ghost function World(): EngineStore.World
      reads this, contacts
    {
      EngineStore.World(View(), contacts.start, contacts.writes)
    }

    ghost predicate Valid()
      reads this, contacts, contacts.disk
    {
      contacts.Valid() && contacts.suite == suite
    }

    /** The store has made these operations, and no others, since the world was so. */
    ghost predicate Made(was: EngineStore.World, ops: seq<Storage.Op>)
      reads this, contacts
    {
      contacts.start == was.start && EngineStore.Wrote(was.ws, contacts.writes, ops)
    }

    constructor (suite: Suite, localPublic: Bytes, localSecret: Bytes, disk: StoreObject.Disk)
      ensures Valid() && this.suite == suite && fresh(contacts) && contacts.disk == disk
      ensures View() == Boot(localPublic, localSecret, EMPTY)
      ensures contacts.View() == Storage.State(EMPTY, false, [], [], disk.file)
    {
      this.suite, this.localPublic, this.localSecret := suite, localPublic, localSecret;
      this.contacts := new StoreObject.Store(suite, disk);
      relay, sessions, endpoints, probes, incoming, outgoing := None, map[], map[], map[], {}, {};
    }

    // ---- the store ----------------------------------------------------------

    /** Loads the store and re-surfaces its pending requests. */
    method OpenStore(passphrase: Bytes) returns (ok: bool, ghost salt: Bytes, ghost io: Storage.Io)
      requires Valid()
      modifies this`incoming, contacts, contacts.disk
      ensures Valid()
      ensures (contacts.View(), ok) == Storage.Open(contacts.suite, old(contacts.View()), passphrase, salt, io)
      ensures View() == old(View()).(db := contacts.Db(), incoming := incoming)
      ensures incoming == old(incoming) + if ok then RequestKeys(contacts.requests) else {}
      ensures contacts.start == contacts.View() && contacts.writes == []
    {
      ok, salt, io := contacts.Open(passphrase);
      if ok { Resurface(); }
    }

    method Resurface()
      modifies this`incoming
      ensures incoming == old(incoming) + RequestKeys(contacts.requests)
    {
      hide RequestKeys;
      hide Hex;
      var requests := contacts.requests;
      EngineTrust.RequestKeysNil();
      for i := 0 to |requests|
        invariant incoming == old(incoming) + RequestKeys(requests[..i])
      {
        EngineTrust.RequestKeysSnoc(requests[..i], requests[i]);
        assert requests[..i + 1] == requests[..i] + [requests[i]];
        var key := ToHex(requests[i].peer);
        incoming := incoming + {key};
      }
      assert requests[..|requests|] == requests;
    }

    method SetTrust(peer: Bytes, trust: byte)
      requires Valid()
      modifies contacts, contacts.disk
      ensures Valid() && contacts.Db() == EngineModel.SetTrust(old(contacts.Db()), peer, trust)
      ensures Made(old(World()), [Storage.UpsertOp(Trusted(old(contacts.Db()), peer, trust))])
    {
      hide Storage.UpsertContact;
      hide Storage.Find;
      hide EngineStore.Wrote;
      hide Storage.Step;
      hide Storage.Saves;
      ghost var was := contacts.writes;
      var existing := contacts.Find(peer);
      var c := if existing.Some? then existing.value else BLANK_CONTACT;
      contacts.Upsert(c.(publicKey := peer, trust := trust));
      EngineStore.WroteOne(was, contacts.writes, Storage.UpsertOp(c.(publicKey := peer, trust := trust)));
    }

    method SetNickname(peer: Bytes, name: Bytes)
      requires Valid()
      modifies contacts, contacts.disk
      ensures Valid() && EngineStore.Turned(suite, old(World()), EngineModel.SetNickname(peer, name), World())
      ensures contacts.Db() == Rename(old(contacts.Db()), peer, name)
      ensures Made(old(World()), [Storage.UpsertOp(Named(old(contacts.Db()), peer, name))])
    {
      hide Step;
      hide EngineStore.StepOps;
      hide Storage.UpsertContact;
      hide Storage.Find;
      hide EngineStore.Wrote;
      hide Storage.Step;
      hide Storage.Saves;
      ghost var was := World();
      EngineStore.SetNicknameOps(suite, was.e, peer, name);
      var existing := contacts.Find(peer);
      var c := if existing.Some? then existing.value else BLANK_CONTACT;
      contacts.Upsert(c.(publicKey := peer, nickname := name));
      EngineStore.WroteOne(was.ws, contacts.writes, Storage.UpsertOp(c.(publicKey := peer, nickname := name)));
    }

    // ---- sessions and sending -----------------------------------------------

    method EnsureSession(peer: Bytes) returns (ok: bool)
      modifies this`sessions
      ensures ok == HasSession(suite, old(View()), peer)
      ensures View() == if ok then EngineModel.EnsureSession(suite, old(View()), peer).value else old(View())
    {
      var key := ToHex(peer);
      if key in sessions { return true; }
      var s := Sessions.New(suite, localPublic, localSecret, peer);
      if s.key.None? { return false; }
      sessions := sessions[key := s];
      return true;
    }

    method SendPacket(peer: Bytes, packet: Packet, ok: bool) returns (ret: bool, sent: seq<Sent>)
      ensures var (o, r) := EngineModel.SendPacket(View(), peer, packet, ok); ret == r && sent == SentPacket(o)
    {
      var key := ToHex(peer);
      var bytes := SerializePacket(packet);
      if key in endpoints { return ok, [Sent(endpoints[key], bytes)]; }
      if relay.Some? { return ok, [Sent(relay.value, bytes)]; }
      return false, [];
    }

    method EncryptAndSend(peer: Bytes, kind: byte, plaintext: Bytes, nonce: Bytes, ok: bool)
        returns (ret: bool, sent: seq<Sent>)
      requires Hex(peer) in sessions
      modifies this`sessions
      ensures var o := SealAndSend(suite, old(View()), peer, kind, plaintext, nonce, ok);
              View() == o.st && ret == o.ret && sent == SentPacket(o.packet)
    {
      var key := ToHex(peer);
      var (s, packet) := Sessions.EncryptAs(suite, sessions[key], kind, plaintext, nonce);
      sessions := sessions[key := s];
      ret, sent := SendPacket(peer, packet, ok);
    }

    // ---- the entry points ---------------------------------------------------

    /** The call did what the machine does, and the store has on record exactly the
        operations of that step. */
    ghost predicate Did(was: EngineStore.World, x: Input, ret: bool, sent: seq<Sent>)
      reads this, contacts, contacts.disk
    {
      var o := Step(suite, was.e, x);
      Valid() && EngineStore.Turned(suite, was, x, World()) && ret == o.ret && sent == SentPacket(o.packet)
    }

    method AddPeer(peer: Bytes, endpoint: Endpoint) returns (ret: bool)
      requires Valid()
      modifies this, contacts, contacts.disk
      ensures Did(old(World()), EngineModel.AddPeer(peer, endpoint), ret, [])
    {
      hide Step;
      hide EngineStore.StepOps;
      hide EngineStore.Wrote;
      hide Storage.Step;
      hide Storage.Saves;
      hide EngineModel.EnsureSession;
      hide EngineModel.SetTrust;
      hide Trusted;
      EngineStore.AddPeerOps(suite, View(), peer, endpoint);
      EngineStore.WroteNothing(contacts.writes);
      ret := EnsureSession(peer);
      if !ret { return; }
      var key := ToHex(peer);
      endpoints := endpoints[key := endpoint];
      SetTrust(peer, ACCEPTED);
    }

    method SendContactRequest(peer: Bytes, endpoint: Endpoint, greeting: Bytes, nonce: Bytes, ok: bool)
        returns (ret: bool, sent: seq<Sent>)
      requires Valid()
      modifies this, contacts, contacts.disk
      ensures Did(old(World()), EngineModel.SendContactRequest(peer, endpoint, greeting, nonce, ok), ret, sent)
    {
      hide Step;
      hide EngineStore.StepOps;
      hide EngineStore.Wrote;
      hide Storage.Step;
      hide Storage.Saves;
      hide EngineModel.EnsureSession;
      hide EngineModel.SetTrust;
      hide SealAndSend;
      hide Trusted;
      hide Storage.TrustOf;
      hide Hex;
      EngineStore.SendContactRequestOps(suite, View(), peer, endpoint, greeting, nonce, ok);
      EngineStore.WroteNothing(contacts.writes);
      var trust := contacts.TrustOf(peer);
      if trust == Some(ACCEPTED) { return false, []; }
      ret := EnsureSession(peer);
      if !ret { return false, []; }
      var key := ToHex(peer);
      endpoints := endpoints[key := endpoint];
      outgoing := outgoing + {key};
      SetTrust(peer, PENDING);
      ret, sent := EncryptAndSend(peer, CONTACT_REQUEST, greeting, nonce, ok);
    }

    /** accept_contact and reject_contact. */
    method Answer(peer: Bytes, accept: bool, nonce: Bytes, ok: bool) returns (ret: bool, sent: seq<Sent>)
      requires Valid()
      modifies this, contacts, contacts.disk
      ensures var x := if accept then AcceptContact(peer, nonce, ok) else RejectContact(peer, nonce, ok);
              Did(old(World()), x, ret, sent)
    {
      hide Step;
      hide EngineModel.EnsureSession;
      hide EngineModel.SetTrust;
      hide Storage.Without;
      hide SealAndSend;
      hide Trusted;
      hide EngineStore.Wrote;
      hide Storage.Step;
      hide Storage.Saves;
      hide EngineStore.StepOps;
      hide Hex;
      ghost var was := World();
      EngineStore.AnswerOps(suite, was.e, peer, accept, nonce, ok);
      EngineStore.WroteNothing(was.ws);
      var key := ToHex(peer);
      if key !in incoming { return false, []; }
      ret := EnsureSession(peer);
      if !ret { return false, []; }
      incoming := incoming - {key};
      contacts.RemoveRequest(peer);
      EngineStore.WroteOne(was.ws, contacts.writes, Storage.RemoveRequest(peer));
      ghost var mid := contacts.writes;
      var trust := if accept then ACCEPTED else REJECTED;
      EngineStore.TrustedAfterRemoval(was.e.db, peer, trust);
      SetTrust(peer, trust);
      EngineStore.WroteBoth(was.ws, mid, contacts.writes, [Storage.RemoveRequest(peer)],
                            [Storage.UpsertOp(Trusted(was.e.db, peer, trust))]);
      ret, sent := EncryptAndSend(peer, CONTACT_RESPONSE, [if accept then ACCEPT else REJECT], nonce, ok);
    }

    method Send(peer: Bytes, plaintext: Bytes, nonce: Bytes, ok: bool, now: i64) returns (ret: bool, sent: seq<Sent>)
      requires Valid()
      modifies this, contacts, contacts.disk
      ensures Did(old(World()), EngineModel.Send(peer, plaintext, nonce, ok, now), ret, sent)
    {
      hide Step;
      hide EngineStore.StepOps;
      hide EngineStore.Wrote;
      hide Storage.Step;
      hide Storage.Saves;
      hide EngineModel.EnsureSession;
      hide SealAndSend;
      hide Storage.TrustOf;
      hide Hex;
      ghost var was := contacts.writes;
      EngineStore.SendOps(suite, View(), peer, plaintext, nonce, ok, now);
      EngineStore.WroteNothing(was);
      var trust := contacts.TrustOf(peer);
      if trust != Some(ACCEPTED) { return false, []; }
      ret := EnsureSession(peer);
      if !ret { return false, []; }
      ret, sent := EncryptAndSend(peer, MESSAGE, plaintext, nonce, ok);
      if !ret { return; }
      contacts.AppendMessage(Message(peer, plaintext, true, now));
      EngineStore.WroteOne(was, contacts.writes, Storage.AppendMessage(Message(peer, plaintext, true, now)));
    }

    method SetRelay(endpoint: Endpoint)
      requires Valid()
      modifies this`relay
      ensures Did(old(World()), EngineModel.SetRelay(endpoint), true, [])
    {
      EngineStore.WroteNothing(contacts.writes);
      relay := Some(endpoint);
    }

    // ---- hole punching ------------------------------------------------------

    method SendProbe(peer: Bytes, to: Endpoint) returns (sent: Sent)
      ensures sent == SentProbe(localPublic, ProbeTo(peer, to))
    {
      var bytes := SerializePacket(ProbePacket(localPublic, peer));
      sent := Sent(to, bytes);
    }

    /** At most one probe: what a single-peer call sends. */
    ghost predicate OneProbe(o: Out, peer: Bytes, sent: seq<Sent>)
    {
      sent == if Hex(peer) in o.probes then [SentProbe(localPublic, o.probes[Hex(peer)])] else []
    }

    method StartProbing(peer: Bytes, candidate: Endpoint, clock: int) returns (sent: seq<Sent>)
      modifies this`probes
      ensures var o := EngineModel.StartProbing(old(View()), peer, candidate, clock);
              View() == o.st && OneProbe(o, peer, sent)
    {
      var key := ToHex(peer);
      if key in probes && probes[key].confirmed { return []; }
      var p := if key in probes then probes[key] else BLANK_PROBE;
      probes := probes[key := p.(peer := peer, candidate := candidate, last := clock, attempts := 1)];
      var s := SendProbe(peer, candidate);
      return [s];
    }

    method Connect(peer: Bytes, candidate: Endpoint, clock: int) returns (active: Endpoint, sent: seq<Sent>)
      requires Valid()
      modifies this`probes, this`endpoints
      ensures Valid() && EngineStore.Turned(suite, old(World()), EngineModel.Connect(peer, candidate, clock), World())
      ensures var o := Step(suite, old(View()), EngineModel.Connect(peer, candidate, clock));
              OneProbe(o, peer, sent) && o.st.endpoints[Hex(peer)] == active
    {
      hide EngineModel.StartProbing;
      EngineStore.WroteNothing(contacts.writes);
      var key := ToHex(peer);
      active := if relay.Some? then relay.value else candidate;
      endpoints := endpoints[key := active];
      sent := StartProbing(peer, candidate, clock);
    }

    method TickOne(key: string, clock: int) returns (sent: seq<Sent>)
      requires key in probes
      modifies this`probes
      ensures probes == old(probes)[key := Reprobed(old(probes)[key], clock)]
      ensures var p := old(probes)[key];
              sent == if Due(p, clock) then [SentProbe(localPublic, ProbeTo(p.peer, p.candidate))] else []
    {
      var p := probes[key];
      if p.confirmed || p.attempts >= MAX_PROBES { return []; }
      if clock - p.last < PROBE_INTERVAL { return []; }
      var s := SendProbe(p.peer, p.candidate);
      probes := probes[key := p.(attempts := p.attempts + 1, last := clock)];
      return [s];
    }

    /** The loop over probes_, in whatever order the map yields its keys. */
    method TickAll(clock: int) returns (sent: seq<Sent>, ghost order: seq<string>)
      modifies this`probes
      ensures probes == map key | key in old(probes) :: Reprobed(old(probes)[key], clock)
      ensures AreProbes(localPublic, DueProbes(old(probes), old(probes).Keys, clock), sent, order)
    {
      hide AreProbes;
      hide DueProbes;
      hide Repeated;
      hide Reprobed;
      hide Due;
      hide SentProbe;
      sent, order := [], [];
      var todo := probes.Keys;
      ghost var was, done := probes, {};
      AreProbesNil(localPublic, was, clock);
      RepeatedNone(was, clock);
      while todo != {}
        invariant todo + done == was.Keys && todo !! done && Repeated(was, probes, done, clock)
        invariant AreProbes(localPublic, DueProbes(was, done, clock), sent, order)
        decreases |todo|
      {
        var key :| key in todo;
        RepeatedNext(was, probes, done, clock, key);
        var s := TickOne(key, clock);
        AreProbesSnoc(localPublic, was, done, clock, sent, order, key);
        sent := sent + s;
        if s != [] { order := order + [key]; }
        todo, done := todo - {key}, done + {key};
      }
      assert done == was.Keys;
      RepeatedAll(was, probes, clock);
    }

    method Tick(clock: int) returns (sent: seq<Sent>, ghost order: seq<string>)
      requires Valid()
      modifies this`probes
      ensures Valid() && EngineStore.Turned(suite, old(World()), EngineModel.Tick(clock), World())
      ensures AreProbes(localPublic, Step(suite, old(View()), EngineModel.Tick(clock)).probes, sent, order)
    {
      EngineStore.WroteNothing(contacts.writes);
      hide AreProbes;
      hide DueProbes;
      hide Reprobed;
      sent, order := TickAll(clock);
    }

    method HandleProbe(peer: Bytes, from: Endpoint) returns (sent: seq<Sent>)
      modifies this`probes, this`endpoints
      ensures var o := EngineModel.HandleProbe(old(View()), peer, from);
              View() == o.st && OneProbe(o, peer, sent)
    {
      var key := ToHex(peer);
      var p := if key in probes then probes[key] else BLANK_PROBE;
      probes := probes[key := p.(peer := peer, confirmed := true)];
      endpoints := endpoints[key := from];
      if p.confirmed { return []; }
      var s := SendProbe(peer, from);
      return [s];
    }

    method HandleConnect(peer: Bytes, payload: Bytes, clock: int) returns (sent: seq<Sent>)
      modifies this`probes, this`endpoints
      ensures var o := EngineModel.HandleConnect(old(View()), peer, payload, clock);
              View() == o.st && OneProbe(o, peer, sent)
    {
      hide EngineModel.StartProbing;
      var ep := ParseEndpoint(payload);
      if ep.None? { return []; }
      var key := ToHex(peer);
      if key !in endpoints && relay.Some? { endpoints := endpoints[key := relay.value]; }
      sent := StartProbing(peer, ep.value, clock);
    }

    // ---- receiving ----------------------------------------------------------

    method HandleMessage(peer: Bytes, plaintext: Bytes, now: i64) returns (event: Event)
      requires Valid()
      modifies contacts, contacts.disk
      ensures var o := EngineModel.HandleMessage(old(View()), peer, plaintext, now);
              Valid() && View() == o.st && o.event == Some(event)
      ensures var f := EngineLedger.Log(Message(peer, plaintext, false, now));
              Made(old(World()), EngineStore.OpsOf(old(contacts.Db()), f))
    {
      contacts.AppendMessage(Message(peer, plaintext, false, now));
      event := MessageDelivered(peer, plaintext);
    }

    /** The nickname a greeting suggests, and the request itself. */
    method StoreGreeting(peer: Bytes, greeting: Bytes, now: i64)
      requires Valid()
      modifies contacts, contacts.disk
      ensures Valid() && Made(old(World()), EngineStore.OpsOfGreeting(old(contacts.Db()), peer, greeting, now))
      ensures var db := if greeting == [] then old(contacts.Db()) else Rename(old(contacts.Db()), peer, greeting);
              contacts.Db() == Storage.Apply(db, Storage.AddRequest(Request(peer, greeting, now)))
    {
      hide Step;
      hide EngineStore.StepOps;
      hide EngineStore.Wrote;
      hide Storage.Step;
      hide Storage.Saves;
      hide Rename;
      hide Named;
      hide Storage.Apply;
      ghost var was, db := contacts.writes, contacts.Db();
      ghost var last := Storage.AddRequest(Request(peer, greeting, now));
      if |greeting| > 0 { SetNickname(peer, greeting); }
      ghost var mid := contacts.writes;
      contacts.AddRequest(Request(peer, greeting, now));
      EngineStore.WroteOne(mid, contacts.writes, last);
      if greeting == [] {
        assert EngineStore.OpsOfGreeting(db, peer, greeting, now) == [last];
      } else {
        EngineStore.WroteBoth(was, mid, contacts.writes, [Storage.UpsertOp(Named(db, peer, greeting))], [last]);
      }
    }

    method HandleContactRequest(peer: Bytes, greeting: Bytes, now: i64) returns (event: Option<Event>)
      requires Valid()
      modifies this`incoming, contacts, contacts.disk
      ensures var o := EngineModel.HandleContactRequest(old(View()), peer, greeting, now);
              Valid() && View() == o.st && event == o.event
      ensures event.Some? <==> Storage.TrustOf(old(contacts.Db()), peer).None? && Hex(peer) !in old(incoming)
      ensures Made(old(World()), if event.None? then []
                                 else EngineStore.OpsOf(old(contacts.Db()), EngineLedger.Surface(peer, greeting, now)))
    {
      hide EngineModel.SetTrust;
      hide Trusted;
      hide Rename;
      hide Storage.Apply;
      hide Storage.TrustOf;
      hide EngineStore.Wrote;
      hide Storage.Step;
      hide Storage.Saves;
      hide EngineStore.OpsOfGreeting;
      hide Hex;
      ghost var was, db := contacts.writes, contacts.Db();
      EngineStore.WroteNothing(was);
      var key := ToHex(peer);
      var trust := contacts.TrustOf(peer);
      if trust.Some? || key in incoming { return None; }
      incoming := incoming + {key};
      SetTrust(peer, PENDING);
      ghost var mid, db1 := contacts.writes, contacts.Db();
      StoreGreeting(peer, greeting, now);
      EngineStore.WroteBoth(was, mid, contacts.writes, [Storage.UpsertOp(Trusted(db, peer, PENDING))],
                            EngineStore.OpsOfGreeting(db1, peer, greeting, now));
      return Some(RequestSurfaced(peer, greeting));
    }

    method HandleContactResponse(peer: Bytes, decision: Bytes) returns (event: Option<Event>)
      requires Valid()
      modifies this`outgoing, contacts, contacts.disk
      ensures var o := EngineModel.HandleContactResponse(old(View()), peer, decision);
              Valid() && View() == o.st && event == o.event
      ensures var f := EngineLedger.Respond(peer, decision != [] && decision[0] == ACCEPT);
              Made(old(World()), if Hex(peer) in old(outgoing) then EngineStore.OpsOf(old(contacts.Db()), f) else [])
    {
      hide EngineModel.SetTrust;
      hide Trusted;
      hide EngineStore.Wrote;
      hide Storage.Step;
      hide Storage.Saves;
      hide Hex;
      EngineStore.WroteNothing(contacts.writes);
      var key := ToHex(peer);
      if key !in outgoing { return None; }
      outgoing := outgoing - {key};
      var accepted := |decision| > 0 && decision[0] == ACCEPT;
      SetTrust(peer, if accepted then ACCEPTED else REJECTED);
      return Some(ResponseSurfaced(peer, accepted));
    }

    method Dispatch(packet: Packet, plaintext: Bytes, now: i64) returns (ret: bool, event: Option<Event>)
      requires Valid()
      modifies this`incoming, this`outgoing, contacts, contacts.disk
      ensures var o := EngineModel.Dispatch(old(View()), packet, plaintext, now);
              Valid() && View() == o.st && ret == o.ret && event == o.event
      ensures var f := EngineLedger.DispatchEffect(EngineLedger.LedgerOf(old(View())), packet, plaintext, now);
              Made(old(World()), EngineStore.OpsOf(old(contacts.Db()), f))
    {
      hide EngineModel.HandleContactRequest;
      hide EngineModel.HandleContactResponse;
      hide EngineStore.OpsOf;
      hide EngineStore.Wrote;
      hide Storage.TrustOf;
      hide Hex;
      EngineStore.NoOps(contacts.Db());
      EngineStore.WroteNothing(contacts.writes);
      ret, event := true, None;
      if packet.kind == MESSAGE {
        var e := HandleMessage(packet.source, plaintext, now);
        event := Some(e);
      } else if packet.kind == CONTACT_REQUEST {
        event := HandleContactRequest(packet.source, plaintext, now);
      } else if packet.kind == CONTACT_RESPONSE {
        event := HandleContactResponse(packet.source, plaintext);
      } else {
        ret := false;
      }
    }

    /** The spam gate, the session, the decryption and the dispatch. */
    method Receive(packet: Packet, from: Endpoint, now: i64) returns (ret: bool, event: Option<Event>)
      requires Valid()
      modifies this, contacts, contacts.disk
      ensures var o := EngineModel.Receive(suite, old(View()), packet, from, now);
              Valid() && View() == o.st && ret == o.ret && event == o.event
      ensures var f := EngineLedger.ReceiptEffect(suite, old(View()), packet, now);
              Made(old(World()), EngineStore.OpsOf(old(contacts.Db()), f))
    {
      hide EngineModel.EnsureSession;
      hide EngineModel.Dispatch;
      hide Sessions.Decrypt;
      hide Storage.TrustOf;
      if packet.kind == MESSAGE {
        var trust := contacts.TrustOf(packet.source);
        if trust != Some(ACCEPTED) { return false, None; }
      }
      ret := EnsureSession(packet.source);
      if !ret { return false, None; }
      var key := ToHex(packet.source);
      var (s, plaintext) := Sessions.Decrypt(suite, sessions[key], packet);
      sessions := sessions[key := s];
      if plaintext.None? { return false, None; }
      if key !in probes || !probes[key].confirmed {
        endpoints := endpoints[key := from];
      }
      ret, event := Dispatch(packet, plaintext.value, now);
    }

    method Poll(datagram: Option<Datagram>, now: i64, clock: int)
        returns (ret: bool, sent: seq<Sent>, event: Option<Event>)
      requires Valid()
      modifies this, contacts, contacts.disk
      ensures var x := EngineModel.Poll(datagram, now, clock);
              var o := Step(suite, old(View()), x);
              && Valid() && EngineStore.Turned(suite, old(World()), x, World()) && ret == o.ret && event == o.event
              && (if Polled(x).Some? then OneProbe(o, Polled(x).value.source, sent) else sent == [])
    {
      hide Step;
      hide EngineStore.StepOps;
      hide EngineStore.OpsOf;
      hide EngineStore.Wrote;
      hide EngineLedger.ReceiptEffect;
      hide EngineModel.HandleProbe;
      hide EngineModel.HandleConnect;
      hide EngineModel.Receive;
      hide Parse;
      EngineStore.PollOps(suite, View(), EngineModel.Poll(datagram, now, clock));
      EngineStore.WroteNothing(contacts.writes);
      ret, sent, event := false, [], None;
      if datagram.None? { return; }
      var parsed := ParsePacket(datagram.value.data);
      if parsed.Err? { return; }
      var packet := parsed.packet;
      if packet.kind == HELLO {
        if packet.destination == localPublic && |packet.source| > 0 {
          sent := HandleProbe(packet.source, datagram.value.from);
        }
        ret := true;
      } else if packet.kind == CONNECT {
        sent := HandleConnect(packet.source, packet.payload, clock);
        ret := true;
      } else {
        ReceiveSendsNoProbe(suite, View(), packet, datagram.value.from, now);
        ret, event := Receive(packet, datagram.value.from, now);
      }
    }
  }

  /** A new process on the disk of an earlier one opens the file that one left. */
  method StartUp(suite: Suite, localPublic: Bytes, localSecret: Bytes, disk: StoreObject.Disk, passphrase: Bytes)
      returns (ok: bool, engine: EngineObject)
    modifies disk
    ensures fresh(engine) && engine.suite == suite && engine.Valid()
    ensures forall w: EngineStore.World ::
              w.e.self == localPublic && w.e.secret == localSecret &&
              old(disk.file).Some? && Storage.After(suite, w.start, w.ws).file == old(disk.file) ==>
                if ok then EngineStore.Reopened(suite, passphrase, w, engine.World())
                else forall v :: !EngineStore.Reopened(suite, passphrase, w, v)
  {
    hide Storage.After;
    hide Storage.Load;
    hide RequestKeys;
    engine := new EngineObject(suite, localPublic, localSecret, disk);
    EngineTrust.RequestKeysNil();
    ghost var salt, io;
    ghost var blank := engine.contacts.View();
    ok, salt, io := engine.OpenStore(passphrase);
    if ok {
      assert engine.incoming == RequestKeys(engine.contacts.requests);
      assert engine.View() == Boot(localPublic, localSecret, engine.contacts.Db());
    }
    if blank.file.Some? {
      assert Storage.Open(suite, blank, passphrase, salt, io) ==
               Storage.Open(suite, blank, passphrase, [], Storage.Io([], false));
    }
  }

  lemma ReceiveSendsNoProbe(c: Suite, e: Engine, p: Packet, from: Endpoint, now: i64)
    ensures Receive(c, e, p, from, now).probes == map[]
  {
    hide Admit;
    hide TrackAddress;
    hide SetTrust;
    hide Rename;
    hide Storage.Apply;
    hide Storage.TrustOf;
  }
}
