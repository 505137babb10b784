/** Two engines getting to know each other: what each sends reaches the other, from the
    first contact request to the first message. */
module Handshake {
  import opened Octets
  import opened HexKeys
  import opened Wire
  import opened EndpointText
  import opened StoreCodec
  import opened Crypto
  import opened EngineModel
  import opened EngineLedger
  import opened EngineSessions
  import opened EngineRoutes
  import opened EnginePaths
  import Sessions
  import Storage

  /** What a sending call seals, and as what. */
  function KindOf(x: Input): byte
    requires IsSending(x)
  {
    if x.SendContactRequest? then 5 else if x.Send? then 7 else 6
  }

  function TextOf(x: Input): Bytes
    requires IsSending(x)
  {
    match x
    case SendContactRequest(_, _, greeting, _, _) => greeting
    case AcceptContact(_, _, _) => [1]
    case RejectContact(_, _, _) => [0]
    case Send(_, text, _, _, _) => text
  }

  /** The two ends have one key. */
  predicate Kin(c: Suite, a: Engine, b: Engine)
  {
    c.agree(a.secret, b.self).Some? && c.agree(a.secret, b.self) == c.agree(b.secret, a.self)
  }

  predicate Newer(c: Suite, b: Engine, from: Bytes, counter: u64)
  {
    var last := SessionWith(c, b, from).lastReceived;
    last.Some? ==> last.value < counter
  }

  /** The packet of a sending call: who from, who for, what kind, which number. */
  lemma SealedPacket(c: Suite, a: Engine, x: Input)
    requires IsSending(x) && Sound(c, a, x.peer) && EngineModel.Step(c, a, x).packet.Some?
    ensures var q := EngineModel.Step(c, a, x).packet.value.packet;
            && q.version == 1 && q.kind == KindOf(x) && q.flags == 0x01 && q.source == a.self && q.destination == x.peer
            && q.counter == SessionWith(c, a, x.peer).sendCounter
            && q == Sessions.EncryptAs(c, SessionWith(c, a, x.peer), KindOf(x), TextOf(x), x.nonce).1
            && c.agree(a.secret, x.peer).Some?
  {
    hide EngineModel.Step;
    hide SessionWith;
    hide AssociatedData;
    hide Storage.TrustOf;
    hide HasSession;
    hide Hex;
    StepSeals(c, a, x);
    SessionIffAgreed(c, a, x.peer);
  }

  /** b decrypts what a sealed, exactly when nothing newer came first. */
  lemma SealedIsAdmitted(c: Suite, a: Engine, b: Engine, x: Input)
    requires Correct(c) && Sound(c, a, b.self) && Sound(c, b, a.self) && Kin(c, a, b)
    requires IsSending(x) && x.peer == b.self && EngineModel.Step(c, a, x).packet.Some?
    requires !Gated(b, EngineModel.Step(c, a, x).packet.value.packet)
    ensures var q := EngineModel.Step(c, a, x).packet.value.packet;
            && FitsField(q.source) && FitsField(q.destination)
            && Admit(c, b, q).1 == if Newer(c, b, a.self, q.counter) then Some(TextOf(x)) else None
  {
    hide EngineModel.Step;
    hide SessionWith;
    hide Admit;
    hide AssociatedData;
    hide Storage.TrustOf;
    SealedPacket(c, a, x);
    var q := EngineModel.Step(c, a, x).packet.value.packet;
    AdmissionUsesSession(c, b, q, a.self);
    Sessions.SealedOpensAtPeer(c, SessionWith(c, a, b.self), SessionWith(c, b, a.self), KindOf(x), TextOf(x), x.nonce);
  }

  /** The poll receives the packet of that call, if there was one. */
  predicate Carries(y: Input, o: Out)
  {
    y.Poll? && y.datagram.Some? && (o.packet.Some? ==> y.datagram.value.data == Serialize(o.packet.value.packet))
  }

  lemma PollOfSealed(c: Suite, b: Engine, q: Packet, y: Input)
    requires q.version == VERSION && q.kind != HELLO && q.kind != CONNECT
    requires FitsField(q.source) && FitsField(q.destination)
    requires y.Poll? && y.datagram.Some? && y.datagram.value.data == Serialize(q)
    ensures Polled(y) == if FitsField(q.payload) then Some(q) else None
    ensures EffectOf(c, b, y) == if FitsField(q.payload) then ReceiptEffect(c, b, q, y.now) else Nothing
  {
    hide Parse;
    hide Serialize;
    hide ReceiptEffect;
    RoundTrip(q);
    if !FitsField(q.payload) { OversizedPayloadIsRejected(q); }
  }

  /** The packet got through: it fits and is newer than anything heard of its sender. */
  predicate Through(c: Suite, b: Engine, q: Packet) { FitsField(q.payload) && Newer(c, b, q.source, q.counter) }

  /** b, polling what a sealed, does to its ledger what the packet asks, if it got
      through. */
  lemma SealedReaches(c: Suite, a: Engine, b: Engine, x: Input, y: Input)
    requires Correct(c) && Sound(c, a, b.self) && Sound(c, b, a.self) && Kin(c, a, b)
    requires IsSending(x) && x.peer == b.self && EngineModel.Step(c, a, x).packet.Some?
    requires !Gated(b, EngineModel.Step(c, a, x).packet.value.packet)
    requires Carries(y, EngineModel.Step(c, a, x))
    ensures var q := EngineModel.Step(c, a, x).packet.value.packet;
            && q.kind == KindOf(x) && q.source == a.self
            && EngineModel.Step(c, b, y).event == EventOf(EffectOf(c, b, y))
            && (Through(c, b, q) ==> Polled(y) == Some(q) && Heard(c, b, y, a.self))
            && EffectOf(c, b, y) ==
                 if Through(c, b, q) then DispatchEffect(LedgerOf(b), q, TextOf(x), y.now) else Nothing
  {
    hide EngineModel.Step;
    hide Sound;
    hide Admit;
    hide Correct;
    hide Kin;
    hide Newer;
    hide Gated;
    hide Serialize;
    hide EngineLedger.Apply;
    hide Allowed;
    hide EffectOf;
    hide DispatchEffect;
    SealedPacket(c, a, x);
    SealedIsAdmitted(c, a, b, x);
    PollOfSealed(c, b, EngineModel.Step(c, a, x).packet.value.packet, y);
    StepHasItsEffect(c, b, y);
    if Polled(y).Some? { AdmittedIffHeard(c, b, y); }
  }

  /** A contact request is surfaced, with its greeting, exactly when it gets through and
      the sender is a stranger. */
  lemma RequestReaches(c: Suite, a: Engine, b: Engine, x: Input, y: Input)
    requires Correct(c) && Sound(c, a, b.self) && Sound(c, b, a.self) && Kin(c, a, b)
    requires x.SendContactRequest? && x.peer == b.self && EngineModel.Step(c, a, x).packet.Some?
    requires Carries(y, EngineModel.Step(c, a, x))
    ensures var q := EngineModel.Step(c, a, x).packet.value.packet;
            EngineModel.Step(c, b, y).event ==
              if Through(c, b, q) && Storage.TrustOf(b.db, a.self).None? && Hex(a.self) !in b.incoming
              then Some(RequestSurfaced(a.self, x.greeting)) else None
  {
    hide EngineModel.Step;
    hide Sound;
    hide Correct;
    hide Kin;
    hide Through;
    hide Heard;
    hide Polled;
    hide SessionWith;
    hide Sessions.EncryptAs;
    hide Carries;
    hide Storage.TrustOf;
    hide EffectOf;
    hide Hex;
    SealedPacket(c, a, x);
    SealedReaches(c, a, b, x, y);
  }

  /** An answer is surfaced, as what it is, exactly when it gets through and was asked
      for. */
  lemma AnswerReaches(c: Suite, b: Engine, a: Engine, x: Input, y: Input)
    requires Correct(c) && Sound(c, b, a.self) && Sound(c, a, b.self) && Kin(c, b, a)
    requires (x.AcceptContact? || x.RejectContact?) && x.peer == a.self && EngineModel.Step(c, b, x).packet.Some?
    requires Carries(y, EngineModel.Step(c, b, x))
    ensures var q := EngineModel.Step(c, b, x).packet.value.packet;
            EngineModel.Step(c, a, y).event ==
              if Through(c, a, q) && Hex(b.self) in a.outgoing
              then Some(ResponseSurfaced(b.self, x.AcceptContact?)) else None
  {
    hide EngineModel.Step;
    hide Sound;
    hide Correct;
    hide Kin;
    hide Through;
    hide Heard;
    hide Polled;
    hide SessionWith;
    hide Sessions.EncryptAs;
    hide Carries;
    hide Storage.TrustOf;
    hide EffectOf;
    hide Hex;
    SealedPacket(c, b, x);
    SealedReaches(c, b, a, x, y);
  }

  /** A message is delivered exactly when it gets through and the sender is a contact. */
  lemma MessageReaches(c: Suite, a: Engine, b: Engine, x: Input, y: Input)
    requires Correct(c) && Sound(c, a, b.self) && Sound(c, b, a.self) && Kin(c, a, b)
    requires x.Send? && x.peer == b.self && EngineModel.Step(c, a, x).packet.Some?
    requires Carries(y, EngineModel.Step(c, a, x)) && Storage.TrustOf(b.db, a.self) == Some(ACCEPTED)
    ensures var q := EngineModel.Step(c, a, x).packet.value.packet;
            EngineModel.Step(c, b, y).event ==
              if Through(c, b, q) then Some(MessageDelivered(a.self, x.plaintext)) else None
  {
    hide EngineModel.Step;
    hide Sound;
    hide Correct;
    hide Kin;
    hide Through;
    hide Heard;
    hide Polled;
    hide SessionWith;
    hide Sessions.EncryptAs;
    hide Carries;
    hide Storage.TrustOf;
    hide EffectOf;
    hide Hex;
    SealedPacket(c, a, x);
    SealedReaches(c, a, b, x, y);
  }

  // ---- the whole handshake --------------------------------------------------

  /** Six steps of two engines: a asks, b hears it, b accepts, a hears that, a sends a
      message, b gets it. */
  datatype Meeting = Meeting(asked: Entry, heard: Entry, accepted: Entry, told: Entry, sent: Entry, got: Entry)

  ghost predicate IsMeeting(c: Suite, a: Engine, b: Engine, m: Meeting)
  {
    && IsRun(c, a, [m.asked, m.told, m.sent]) && IsRun(c, b, [m.heard, m.accepted, m.got])
    && m.asked.x.SendContactRequest? && m.asked.x.peer == b.self && m.asked.x.ok
    && m.accepted.x.AcceptContact? && m.accepted.x.peer == a.self && m.accepted.x.ok
    && m.sent.x.Send? && m.sent.x.peer == b.self && m.sent.x.ok
    && Reaches(m.heard.x, m.asked.out) && Reaches(m.told.x, m.accepted.out) && Reaches(m.got.x, m.sent.out)
  }

  /** The poll receives the packet, which is not oversized. */
  predicate Reaches(y: Input, o: Out)
  {
    Carries(y, o) && (o.packet.Some? ==> FitsField(o.packet.value.packet.payload))
  }

  lemma MeetingSteps(c: Suite, a: Engine, b: Engine, m: Meeting)
    requires IsMeeting(c, a, b, m)
    ensures m.asked.pre == a && m.asked.out == EngineModel.Step(c, a, m.asked.x)
    ensures m.told.pre == m.asked.out.st && m.told.out == EngineModel.Step(c, m.told.pre, m.told.x)
    ensures m.sent.pre == m.told.out.st && m.sent.out == EngineModel.Step(c, m.sent.pre, m.sent.x)
    ensures m.heard.pre == b && m.heard.out == EngineModel.Step(c, b, m.heard.x)
    ensures m.accepted.pre == m.heard.out.st && m.accepted.out == EngineModel.Step(c, m.accepted.pre, m.accepted.x)
    ensures m.got.pre == m.accepted.out.st && m.got.out == EngineModel.Step(c, m.got.pre, m.got.x)
  {
    hide EngineModel.Step;
    var ra, rb := [m.asked, m.told, m.sent], [m.heard, m.accepted, m.got];
    assert IsStep(c, a, ra, 0) && IsStep(c, a, ra, 1) && IsStep(c, a, ra, 2);
    assert IsStep(c, b, rb, 0) && IsStep(c, b, rb, 1) && IsStep(c, b, rb, 2);
  }

  /** A sending call uses one number of the session and nothing else of it. */
  lemma AfterSending(c: Suite, e: Engine, x: Input)
    requires IsSending(x) && Sound(c, e, x.peer) && EngineModel.Step(c, e, x).packet.Some?
    ensures var s, t := SessionWith(c, e, x.peer), SessionWith(c, EngineModel.Step(c, e, x).st, x.peer);
            t == s.(sendCounter := (s.sendCounter + 1) % TWO64)
  {
    hide EngineModel.Step;
    hide SessionWith;
    hide AssociatedData;
    hide Sealed;
    hide Storage.TrustOf;
    hide HasSession;
    hide Hex;
    StepSeals(c, e, x);
    StepUsesSession(c, e, x, x.peer);
  }

  /** Hearing a peer marks the packet's number and, without a direct path, its address. */
  lemma AfterHearing(c: Suite, e: Engine, y: Input, peer: Bytes)
    requires Sound(c, e, peer) && Filed(e) && Heard(c, e, y, peer) && !Confirmed(e, Hex(peer))
    ensures var s, o := SessionWith(c, e, peer), EngineModel.Step(c, e, y);
            && SessionWith(c, o.st, peer) == s.(lastReceived := Some(Polled(y).value.counter))
            && EndpointOf(o.st, peer) == Some(y.datagram.value.from) && !Confirmed(o.st, Hex(peer))
  {
    hide EngineModel.Step;
    hide SessionWith;
    hide AssociatedData;
    hide Sound;
    hide Parse;
    hide ParseEndpoint;
    hide Storage.TrustOf;
    hide Hex;
    StepUsesSession(c, e, y, peer);
    StepFollows(c, e, y, peer);
  }

  /** What an engine holds of a peer midway: numbers used and heard, and its address. */
  predicate Holds(c: Suite, e: Engine, peer: Bytes, used: u64, heard: Option<u64>, at: Endpoint)
  {
    && SessionWith(c, e, peer).sendCounter == used && SessionWith(c, e, peer).lastReceived == heard
    && EndpointOf(e, peer) == Some(at) && !Confirmed(e, Hex(peer))
  }

  ghost predicate Ready(c: Suite, e: Engine, peer: Bytes) { Sound(c, e, peer) && Filed(e) }

  lemma ReadyStays(c: Suite, e: Engine, x: Input, peer: Bytes)
    requires Ready(c, e, peer)
    ensures var f := EngineModel.Step(c, e, x).st; Ready(c, f, peer) && f.self == e.self && f.secret == e.secret
  {
    hide EngineModel.Step;
    hide Sound;
    hide Filed;
    StepKeepsSound(c, e, x, peer);
    StepKeepsFiled(c, e, x);
    IdentityStays(c, e, x);
  }

  /** A sending call with a known address goes out, to it. */
  lemma GoesTo(c: Suite, e: Engine, x: Input, used: u64, heard: Option<u64>, at: Endpoint)
    requires IsSending(x) && x.ok && !x.SendContactRequest? && Ready(c, e, x.peer) && Speaks(c, e, x)
    requires Holds(c, e, x.peer, used, heard, at) && used + 1 < TWO64
    ensures var o := EngineModel.Step(c, e, x);
            && o.ret && o.packet.Some? && o.packet.value.to == at && o.packet.value.packet.counter == used
            && Holds(c, o.st, x.peer, used + 1, heard, at)
  {
    hide EngineModel.Step;
    hide SessionWith;
    hide Sound;
    hide Speaks;
    hide Hex;
    StepFollows(c, e, x, x.peer);
    StepSends(c, e, x);
    SealedPacket(c, e, x);
    AfterSending(c, e, x);
  }

  /** The first request goes out, to the endpoint given. */
  lemma AskGoesTo(c: Suite, e: Engine, x: Input)
    requires x.SendContactRequest? && x.ok && e == Boot(e.self, e.secret, e.db)
    requires Agreed(c, e, x.peer) && Storage.TrustOf(e.db, x.peer) != Some(ACCEPTED)
    ensures var o := EngineModel.Step(c, e, x);
            && o.ret && o.packet.Some? && o.packet.value.to == x.endpoint && o.packet.value.packet.counter == 0
            && Holds(c, o.st, x.peer, 1, None, x.endpoint) && Hex(x.peer) in o.st.outgoing
  {
    BootIsSound(c, e, x.peer);
    assert SessionWith(c, e, x.peer).sendCounter == 0 && SessionWith(c, e, x.peer).lastReceived == None;
    hide EngineModel.Step;
    hide SessionWith;
    hide Sound;
    hide Storage.TrustOf;
    hide Hex;
    StepFollows(c, e, x, x.peer);
    StepSends(c, e, x);
    SealedPacket(c, e, x);
    AfterSending(c, e, x);
    SessionIffAgreed(c, e, x.peer);
    StepHasItsEffect(c, e, x);
  }

  /** The other end of that: the sender's number is marked, and its address. */
  lemma Arrives(c: Suite, a: Engine, b: Engine, x: Input, y: Input)
    requires Correct(c) && Ready(c, a, b.self) && Ready(c, b, a.self) && Kin(c, a, b)
    requires IsSending(x) && x.peer == b.self && EngineModel.Step(c, a, x).packet.Some?
    requires !Gated(b, EngineModel.Step(c, a, x).packet.value.packet) && Reaches(y, EngineModel.Step(c, a, x))
    requires var q := EngineModel.Step(c, a, x).packet.value.packet; Newer(c, b, a.self, q.counter)
    requires !Confirmed(b, Hex(a.self))
    ensures var q := EngineModel.Step(c, a, x).packet.value.packet;
            && Through(c, b, q)
            && Holds(c, EngineModel.Step(c, b, y).st, a.self, SessionWith(c, b, a.self).sendCounter, Some(q.counter),
                     y.datagram.value.from)
  {
    hide EngineModel.Step;
    hide SessionWith;
    hide Sound;
    hide Filed;
    hide Correct;
    hide Kin;
    hide Gated;
    hide Heard;
    hide Serialize;
    hide EffectOf;
    hide Polled;
    hide Sessions.EncryptAs;
    hide Hex;
    SealedPacket(c, a, x);
    SealedReaches(c, a, b, x, y);
    AfterHearing(c, b, y, a.self);
  }

  /** The handshake completes.  Two strangers with one key, each with nothing but a store:
      the request goes to the endpoint given and is surfaced with its greeting; accepting
      it sends an answer to where it came from; that is surfaced, and each is the other's
      contact; the next message goes to where the answer came from and is delivered. */
  lemma HandshakeCompletes(c: Suite, a: Engine, b: Engine, m: Meeting)
    requires Correct(c) && Kin(c, a, b) && IsMeeting(c, a, b, m)
    requires a == Boot(a.self, a.secret, a.db) && Storage.TrustOf(a.db, b.self) != Some(ACCEPTED)
    requires b == Boot(b.self, b.secret, b.db) && Storage.TrustOf(b.db, a.self).None? && Hex(a.self) !in b.incoming
    ensures m.asked.out.ret && m.asked.out.packet.Some? && m.asked.out.packet.value.to == m.asked.x.endpoint
    ensures m.heard.out.event == Some(RequestSurfaced(a.self, m.asked.x.greeting))
    ensures m.accepted.out.ret && m.accepted.out.packet.Some?
    ensures m.accepted.out.packet.value.to == m.heard.x.datagram.value.from
    ensures m.told.out.event == Some(ResponseSurfaced(b.self, true))
    ensures Storage.TrustOf(m.told.out.st.db, b.self) == Some(ACCEPTED)
    ensures Storage.TrustOf(m.accepted.out.st.db, a.self) == Some(ACCEPTED)
    ensures m.sent.out.ret && m.sent.out.packet.Some? && m.sent.out.packet.value.to == m.told.x.datagram.value.from
    ensures m.got.out.event == Some(MessageDelivered(a.self, m.sent.x.plaintext))
  {
    hide EngineModel.Step;
    hide IsMeeting;
    hide Storage.TrustOf;
    hide Correct;
    hide Hex;
    AskedAndHeard(c, a, b, m);
    AcceptedAndTold(c, a, b, m);
    SentAndGot(c, a, b, m);
  }

  /** After the first exchange. */
  ghost predicate Asked(c: Suite, a: Engine, b: Engine, m: Meeting)
  {
    var a1, b1 := m.asked.out.st, m.heard.out.st;
    && Ready(c, a1, b.self) && Ready(c, b1, a.self) && a1.self == a.self && b1.self == b.self && Kin(c, a1, b1)
    && m.asked.x.SendContactRequest? && Hex(b.self) in a1.outgoing
    && Holds(c, a1, b.self, 1, None, m.asked.x.endpoint)
    && m.heard.x.Poll? && m.heard.x.datagram.Some?
    && Holds(c, b1, a.self, 0, Some(0), m.heard.x.datagram.value.from) && Hex(a.self) in b1.incoming
  }

  lemma AskedAndHeard(c: Suite, a: Engine, b: Engine, m: Meeting)
    requires Correct(c) && Kin(c, a, b) && IsMeeting(c, a, b, m)
    requires a == Boot(a.self, a.secret, a.db) && Storage.TrustOf(a.db, b.self) != Some(ACCEPTED)
    requires b == Boot(b.self, b.secret, b.db) && Storage.TrustOf(b.db, a.self).None? && Hex(a.self) !in b.incoming
    ensures m.asked.out.ret && m.asked.out.packet.Some? && m.asked.out.packet.value.to == m.asked.x.endpoint
    ensures m.heard.out.event == Some(RequestSurfaced(a.self, m.asked.x.greeting))
    ensures Asked(c, a, b, m)
  {
    BootIsSound(c, a, b.self);
    BootIsSound(c, b, a.self);
    assert SessionWith(c, b, a.self).sendCounter == 0 && SessionWith(c, b, a.self).lastReceived == None;
    hide EngineModel.Step;
    hide IsRun;
    hide SessionWith;
    hide Sound;
    hide Correct;
    hide Holds;
    hide Through;
    hide Serialize;
    hide Storage.TrustOf;
    hide EffectOf;
    hide EngineLedger.Apply;
    hide Polled;
    hide Heard;
    hide Sessions.EncryptAs;
    hide Hex;
    MeetingSteps(c, a, b, m);
    var x, y := m.asked.x, m.heard.x;
    AskGoesTo(c, a, x);
    SealedPacket(c, a, x);
    ReadyStays(c, a, x, b.self);
    ReadyStays(c, b, y, a.self);
    Arrives(c, a, b, x, y);
    RequestReaches(c, a, b, x, y);
    SurfacedIsPending(c, b, y, a.self);
  }

  /** A surfaced request can be answered. */
  lemma SurfacedIsPending(c: Suite, b: Engine, y: Input, peer: Bytes)
    requires var event := EngineModel.Step(c, b, y).event;
             event.Some? && event.value.RequestSurfaced? && event.value.peer == peer
    ensures Hex(peer) in EngineModel.Step(c, b, y).st.incoming
  {
    hide EngineModel.Step;
    hide EffectOf;
    hide Allowed;
    hide Hex;
    StepHasItsEffect(c, b, y);
  }

  /** After the second. */
  ghost predicate Agreeing(c: Suite, a: Engine, b: Engine, m: Meeting)
  {
    var a2, b2 := m.told.out.st, m.accepted.out.st;
    && Ready(c, a2, b.self) && Ready(c, b2, a.self) && a2.self == a.self && b2.self == b.self && Kin(c, a2, b2)
    && m.told.x.Poll? && m.told.x.datagram.Some? && m.heard.x.Poll? && m.heard.x.datagram.Some?
    && Holds(c, a2, b.self, 1, Some(0), m.told.x.datagram.value.from)
    && Holds(c, b2, a.self, 1, Some(0), m.heard.x.datagram.value.from)
    && Storage.TrustOf(a2.db, b.self) == Some(ACCEPTED) && Storage.TrustOf(b2.db, a.self) == Some(ACCEPTED)
  }

  lemma AcceptedAndTold(c: Suite, a: Engine, b: Engine, m: Meeting)
    requires Correct(c) && IsMeeting(c, a, b, m) && m.heard.x.Poll? && m.heard.x.datagram.Some? && Asked(c, a, b, m)
    ensures m.accepted.out.ret && m.accepted.out.packet.Some?
    ensures m.accepted.out.packet.value.to == m.heard.x.datagram.value.from
    ensures m.told.out.event == Some(ResponseSurfaced(b.self, true))
    ensures m.told.x.Poll? && m.told.x.datagram.Some? && Agreeing(c, a, b, m)
  {
    hide EngineModel.Step;
    hide IsRun;
    hide SessionWith;
    hide Sound;
    hide Filed;
    hide Correct;
    hide Through;
    hide Serialize;
    hide Storage.TrustOf;
    hide EffectOf;
    hide EngineLedger.Apply;
    hide Polled;
    hide Heard;
    hide Sessions.EncryptAs;
    hide Hex;
    MeetingSteps(c, a, b, m);
    var x, y, a1, b1 := m.accepted.x, m.told.x, m.told.pre, m.accepted.pre;
    GoesTo(c, b1, x, 0, Some(0), m.heard.x.datagram.value.from);
    SealedPacket(c, b1, x);
    ReadyStays(c, a1, y, b.self);
    ReadyStays(c, b1, x, a.self);
    Arrives(c, b1, a1, x, y);
    AnswerReaches(c, b1, a1, x, y);
    AcceptingAccepts(c, b1, x);
    RespondingAccepts(c, a1, y, b.self);
  }

  lemma AcceptingAccepts(c: Suite, b: Engine, x: Input)
    requires x.AcceptContact? && Sound(c, b, x.peer) && EngineModel.Step(c, b, x).packet.Some?
    ensures Storage.TrustOf(EngineModel.Step(c, b, x).st.db, x.peer) == Some(ACCEPTED)
  {
    hide EngineModel.Step;
    hide Storage.TrustOf;
    hide HasSession;
    hide Sealed;
    hide Hex;
    StepSeals(c, b, x);
    StepHasItsEffect(c, b, x);
  }

  lemma RespondingAccepts(c: Suite, a: Engine, y: Input, peer: Bytes)
    requires EngineModel.Step(c, a, y).event == Some(ResponseSurfaced(peer, true))
    ensures Storage.TrustOf(EngineModel.Step(c, a, y).st.db, peer) == Some(ACCEPTED)
  {
    hide EngineModel.Step;
    hide Storage.TrustOf;
    hide EffectOf;
    hide Allowed;
    hide Hex;
    StepHasItsEffect(c, a, y);
  }

  lemma SentAndGot(c: Suite, a: Engine, b: Engine, m: Meeting)
    requires Correct(c) && IsMeeting(c, a, b, m) && m.heard.x.Poll? && m.heard.x.datagram.Some?
    requires m.told.x.Poll? && m.told.x.datagram.Some? && Agreeing(c, a, b, m)
    ensures m.sent.out.ret && m.sent.out.packet.Some? && m.sent.out.packet.value.to == m.told.x.datagram.value.from
    ensures m.got.out.event == Some(MessageDelivered(a.self, m.sent.x.plaintext))
  {
    hide EngineModel.Step;
    hide IsRun;
    hide SessionWith;
    hide Sound;
    hide Filed;
    hide Correct;
    hide Through;
    hide Serialize;
    hide Storage.TrustOf;
    hide EffectOf;
    hide EngineLedger.Apply;
    hide Polled;
    hide Heard;
    hide Sessions.EncryptAs;
    hide Hex;
    MeetingSteps(c, a, b, m);
    var x, y, a2, b2 := m.sent.x, m.got.x, m.sent.pre, m.got.pre;
    GoesTo(c, a2, x, 1, Some(0), m.told.x.datagram.value.from);
    SealedPacket(c, a2, x);
    Arrives(c, a2, b2, x, y);
    MessageReaches(c, a2, b2, x, y);
  }
}
