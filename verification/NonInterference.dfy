/** Connectivity traffic is unauthenticated, and cannot matter: HELLO and CONNECT
    datagrams steer paths but never trust, requests, sessions or what is delivered. */
module NonInterference {
  import opened Octets
  import opened HexKeys
  import opened Wire
  import opened EndpointText
  import opened StoreCodec
  import opened Crypto
  import opened EngineModel
  import opened EngineLedger
  import opened EngineSessions
  import Sessions
  import Storage

  /** The messages received, oldest first. */
  function Inbound(ms: seq<Message>): seq<Message>
  {
    if ms == [] then [] else
      var front, m := Inbound(ms[..|ms| - 1]), ms[|ms| - 1];
      if m.outgoing then front else front + [m]
  }

  lemma InboundSnoc(ms: seq<Message>, m: Message)
    ensures Inbound(ms + [m]) == if m.outgoing then Inbound(ms) else Inbound(ms) + [m]
  {
    assert (ms + [m])[..|ms|] == ms;
  }

  /** Agreement on all but endpoints, probes, the relay and the outbound log. */
  ghost predicate Agree(e: Engine, f: Engine)
  {
    && e.self == f.self && e.secret == f.secret && e.sessions == f.sessions
    && e.incoming == f.incoming && e.outgoing == f.outgoing
    && e.db.contacts == f.db.contacts && e.db.requests == f.db.requests
    && Inbound(e.db.messages) == Inbound(f.db.messages)
  }

  /** A datagram that reaches the connectivity handlers. */
  predicate IsControl(x: Input)
  {
    Polled(x).Some? && (Polled(x).value.kind == HELLO || Polled(x).value.kind == CONNECT)
  }

  /** An input without its send result and steady-clock reading. */
  function Erase(x: Input): Input
  {
    match x
    case SendContactRequest(peer, endpoint, greeting, nonce, _) =>
      SendContactRequest(peer, endpoint, greeting, nonce, true)
    case AcceptContact(peer, nonce, _) => AcceptContact(peer, nonce, true)
    case RejectContact(peer, nonce, _) => RejectContact(peer, nonce, true)
    case Send(peer, plaintext, nonce, _, now) => Send(peer, plaintext, nonce, true, now)
    case Connect(peer, endpoint, _) => Connect(peer, endpoint, 0)
    case Tick(_) => Tick(0)
    case Poll(datagram, now, _) => Poll(datagram, now, 0)
    case _ => x
  }

  /** ys is xs with some control datagrams left out, and with any other send
      results and clock readings. */
  predicate Thins(xs: seq<Input>, ys: seq<Input>)
  {
    if xs == [] then ys == []
    else (IsControl(xs[0]) && Thins(xs[1..], ys)) ||
         (ys != [] && Erase(xs[0]) == Erase(ys[0]) && Thins(xs[1..], ys[1..]))
  }

  function Final(c: Suite, e: Engine, xs: seq<Input>): Engine
    decreases |xs|
  {
    if xs == [] then e else Final(c, EngineModel.Step(c, e, xs[0]).st, xs[1..])
  }

  function Listed(event: Option<Event>): seq<Event> { if event.Some? then [event.value] else [] }

  function Events(c: Suite, e: Engine, xs: seq<Input>): seq<Event>
    decreases |xs|
  {
    hide EngineModel.Step;
    if xs == [] then [] else
      var o := EngineModel.Step(c, e, xs[0]);
      Listed(o.event) + Events(c, o.st, xs[1..])
  }

  // ---- one step -------------------------------------------------------------

  lemma ControlIsInvisible(c: Suite, e: Engine, x: Input)
    requires IsControl(x)
    ensures var o := EngineModel.Step(c, e, x); Agree(e, o.st) && o.event == None
  {
    hide Parse;
    hide HandleProbe;
    hide HandleConnect;
    hide Receive;
  }

  ghost predicate SameSessions(e: Engine, f: Engine)
  {
    e.self == f.self && e.secret == f.secret && e.sessions == f.sessions
  }

  lemma EnsuredSessionsAgree(c: Suite, e: Engine, f: Engine, peer: Bytes)
    requires SameSessions(e, f)
    ensures HasSession(c, e, peer) == HasSession(c, f, peer)
    ensures HasSession(c, e, peer) ==> SameSessions(EnsureSession(c, e, peer).value, EnsureSession(c, f, peer).value)
  {
    hide Sessions.New;
    hide Hex;
  }

  lemma SealedSessionsAgree(c: Suite, e: Engine, f: Engine, peer: Bytes, kind: byte, text: Bytes, nonce: Bytes,
                            ok: bool, okf: bool)
    requires SameSessions(e, f) && Hex(peer) in e.sessions
    ensures SameSessions(SealAndSend(c, e, peer, kind, text, nonce, ok).st,
                         SealAndSend(c, f, peer, kind, text, nonce, okf).st)
  {
    hide Sessions.EncryptAs;
    hide Hex;
  }

  /** What is let in depends on trust and sessions only. */
  lemma AdmissionsAgree(c: Suite, e: Engine, f: Engine, p: Packet)
    requires SameSessions(e, f) && e.db.contacts == f.db.contacts
    ensures Admit(c, e, p).1 == Admit(c, f, p).1 && SameSessions(Admit(c, e, p).0, Admit(c, f, p).0)
  {
    hide EnsureSession;
    hide Sessions.Decrypt;
    hide Storage.Find;
    hide Hex;
    EnsuredSessionsAgree(c, e, f, p.source);
  }

  lemma ReceiptSessionsAgree(c: Suite, e: Engine, f: Engine, p: Packet, from: Endpoint, now: i64)
    requires SameSessions(e, f) && e.db.contacts == f.db.contacts
    ensures SameSessions(Receive(c, e, p, from, now).st, Receive(c, f, p, from, now).st)
  {
    hide Admit;
    hide TrackAddress;
    hide Dispatch;
    AdmissionsAgree(c, e, f, p);
    var (e1, t) := Admit(c, e, p);
    if t.Some? {
      DispatchKeepsSessions(TrackAddress(e1, p.source, from), p, t.value, now);
      DispatchKeepsSessions(TrackAddress(Admit(c, f, p).0, p.source, from), p, t.value, now);
    }
  }

  lemma AnswerSessionsAgree(c: Suite, e: Engine, f: Engine, peer: Bytes, trust: byte, answer: byte, nonce: Bytes,
                            ok: bool, okf: bool)
    requires SameSessions(e, f) && e.incoming == f.incoming
    ensures SameSessions(DoAnswer(c, e, peer, trust, answer, nonce, ok).st,
                         DoAnswer(c, f, peer, trust, answer, nonce, okf).st)
  {
    hide EnsureSession;
    hide SealAndSend;
    hide SetTrust;
    hide Storage.Without;
    hide Hex;
    EnsuredSessionsAgree(c, e, f, peer);
    if Hex(peer) in e.incoming && HasSession(c, e, peer) {
      var e1, f1 := EnsureSession(c, e, peer).value, EnsureSession(c, f, peer).value;
      var e2 := e1.(incoming := e1.incoming - {Hex(peer)},
                    db := SetTrust(e1.db.(requests := Storage.Without(e1.db.requests, peer)), peer, trust));
      var f2 := f1.(incoming := f1.incoming - {Hex(peer)},
                    db := SetTrust(f1.db.(requests := Storage.Without(f1.db.requests, peer)), peer, trust));
      SealedSessionsAgree(c, e2, f2, peer, CONTACT_RESPONSE, [answer], nonce, ok, okf);
    }
  }

  lemma AskSessionsAgree(c: Suite, e: Engine, f: Engine, peer: Bytes, to: Endpoint, greeting: Bytes, nonce: Bytes,
                         ok: bool, okf: bool)
    requires SameSessions(e, f) && e.db.contacts == f.db.contacts
    ensures SameSessions(DoSendContactRequest(c, e, peer, to, greeting, nonce, ok).st,
                         DoSendContactRequest(c, f, peer, to, greeting, nonce, okf).st)
  {
    hide EnsureSession;
    hide SealAndSend;
    hide SetTrust;
    hide Storage.Find;
    hide Hex;
    EnsuredSessionsAgree(c, e, f, peer);
    if Storage.TrustOf(e.db, peer) != Some(ACCEPTED) && HasSession(c, e, peer) {
      var e1, f1 := EnsureSession(c, e, peer).value, EnsureSession(c, f, peer).value;
      var e2 := e1.(endpoints := e1.endpoints[Hex(peer) := to], outgoing := e1.outgoing + {Hex(peer)},
                    db := SetTrust(e1.db, peer, PENDING));
      var f2 := f1.(endpoints := f1.endpoints[Hex(peer) := to], outgoing := f1.outgoing + {Hex(peer)},
                    db := SetTrust(f1.db, peer, PENDING));
      SealedSessionsAgree(c, e2, f2, peer, CONTACT_REQUEST, greeting, nonce, ok, okf);
    }
  }

  lemma SendSessionsAgree(c: Suite, e: Engine, f: Engine, peer: Bytes, text: Bytes, nonce: Bytes, ok: bool, okf: bool,
                          now: i64)
    requires SameSessions(e, f) && e.db.contacts == f.db.contacts
    ensures SameSessions(DoSend(c, e, peer, text, nonce, ok, now).st, DoSend(c, f, peer, text, nonce, okf, now).st)
  {
    hide EnsureSession;
    hide SealAndSend;
    hide Storage.Find;
    hide Hex;
    EnsuredSessionsAgree(c, e, f, peer);
    if Storage.TrustOf(e.db, peer) == Some(ACCEPTED) && HasSession(c, e, peer) {
      SealedSessionsAgree(c, EnsureSession(c, e, peer).value, EnsureSession(c, f, peer).value, peer, MESSAGE, text,
                          nonce, ok, okf);
    }
  }

  lemma AddSessionsAgree(c: Suite, e: Engine, f: Engine, peer: Bytes, to: Endpoint)
    requires SameSessions(e, f)
    ensures SameSessions(DoAddPeer(c, e, peer, to).st, DoAddPeer(c, f, peer, to).st)
  {
    hide EnsureSession;
    hide SetTrust;
    hide Hex;
    EnsuredSessionsAgree(c, e, f, peer);
  }

  lemma PollSessionsAgree(c: Suite, e: Engine, f: Engine, d: Option<Datagram>, now: i64, clock: int, clockf: int)
    requires SameSessions(e, f) && e.db.contacts == f.db.contacts
    ensures SameSessions(DoPoll(c, e, d, now, clock).st, DoPoll(c, f, d, now, clockf).st)
  {
    hide Parse;
    hide HandleProbe;
    hide HandleConnect;
    hide Receive;
    if d.Some? && Parse(d.value.data).Ok? {
      ReceiptSessionsAgree(c, e, f, Parse(d.value.data).packet, d.value.from, now);
    }
  }

  /** The sessions a step leaves depend on agreed state only. */
  lemma SessionsAgree(c: Suite, e: Engine, f: Engine, x: Input, y: Input)
    requires Agree(e, f) && Erase(x) == Erase(y)
    ensures SameSessions(EngineModel.Step(c, e, x).st, EngineModel.Step(c, f, y).st)
  {
    hide Inbound;
    hide DoAddPeer;
    hide DoSendContactRequest;
    hide DoAnswer;
    hide DoSend;
    hide Rename;
    hide DoConnect;
    hide DoTick;
    hide DoPoll;
    hide RequestKeys;
    match x
    case AddPeer(peer, to) => AddSessionsAgree(c, e, f, peer, to);
    case SendContactRequest(peer, to, greeting, nonce, ok) =>
      AskSessionsAgree(c, e, f, peer, to, greeting, nonce, ok, y.ok);
    case AcceptContact(peer, nonce, ok) => AnswerSessionsAgree(c, e, f, peer, ACCEPTED, ACCEPT, nonce, ok, y.ok);
    case RejectContact(peer, nonce, ok) => AnswerSessionsAgree(c, e, f, peer, REJECTED, REJECT, nonce, ok, y.ok);
    case Send(peer, text, nonce, ok, now) => SendSessionsAgree(c, e, f, peer, text, nonce, ok, y.ok, now);
    case Poll(d, now, clock) => PollSessionsAgree(c, e, f, d, now, clock, y.clock);
    case _ =>
  }

  lemma ReceiptEffectsAgree(c: Suite, e: Engine, f: Engine, p: Packet, now: i64)
    requires Agree(e, f)
    ensures ReceiptEffect(c, e, p, now) == ReceiptEffect(c, f, p, now)
  {
    hide Inbound;
    hide Admit;
    hide Storage.Find;
    hide Hex;
    AdmissionsAgree(c, e, f, p);
  }

  /** So do its effects on the ledger, but for a sent message being logged or not. */
  lemma EffectsAgree(c: Suite, e: Engine, f: Engine, x: Input, y: Input)
    requires Agree(e, f) && Erase(x) == Erase(y)
    ensures !x.Send? ==> EffectOf(c, e, x) == EffectOf(c, f, y)
    ensures x.Send? ==> Unlogged(EffectOf(c, e, x)) && Unlogged(EffectOf(c, f, y))
  {
    hide Inbound;
    hide EnsureSession;
    hide Storage.Find;
    hide EngineModel.Step;
    hide Parse;
    hide Admit;
    hide Hex;
    hide ReceiptEffect;
    if Polled(x).Some? { ReceiptEffectsAgree(c, e, f, Polled(x).value, x.now); }
    match x
    case AddPeer(peer, _) => EnsuredSessionsAgree(c, e, f, peer);
    case SendContactRequest(peer, _, _, _, _) => EnsuredSessionsAgree(c, e, f, peer);
    case AcceptContact(peer, _, _) => EnsuredSessionsAgree(c, e, f, peer);
    case RejectContact(peer, _, _) => EnsuredSessionsAgree(c, e, f, peer);
    case _ =>
  }

  /** Nothing, or a line in the outbound log. */
  predicate Unlogged(g: Effect) { g.Nothing? || (g.Log? && g.message.outgoing) }

  /** Agreement on the ledgers. */
  ghost predicate LedgersAgree(l: Ledger, m: Ledger)
  {
    && l.incoming == m.incoming && l.outgoing == m.outgoing
    && l.db.contacts == m.db.contacts && l.db.requests == m.db.requests
    && Inbound(l.db.messages) == Inbound(m.db.messages)
  }

  lemma SameEffectAgrees(l: Ledger, m: Ledger, g: Effect)
    requires LedgersAgree(l, m)
    ensures LedgersAgree(Apply(l, g), Apply(m, g))
  {
    hide Inbound;
    hide Storage.Find;
    hide Storage.Upsert;
    hide Storage.Without;
    hide Hex;
    if g.Log? {
      InboundSnoc(l.db.messages, g.message);
      InboundSnoc(m.db.messages, g.message);
    }
  }

  lemma UnloggedIsInvisible(l: Ledger, g: Effect)
    requires Unlogged(g)
    ensures LedgersAgree(l, Apply(l, g)) && EventOf(g) == None
  {
    if g.Log? { InboundSnoc(l.db.messages, g.message); }
  }

  lemma StepsAgree(c: Suite, e: Engine, f: Engine, x: Input, y: Input)
    requires Agree(e, f) && Erase(x) == Erase(y)
    ensures var o, q := EngineModel.Step(c, e, x), EngineModel.Step(c, f, y);
            Agree(o.st, q.st) && o.event == q.event
  {
    hide EngineModel.Step;
    hide EffectOf;
    hide EngineLedger.Apply;
    hide Inbound;
    SessionsAgree(c, e, f, x, y);
    EffectsAgree(c, e, f, x, y);
    StepHasItsEffect(c, e, x);
    StepHasItsEffect(c, f, y);
    if x.Send? {
      UnloggedIsInvisible(LedgerOf(e), EffectOf(c, e, x));
      UnloggedIsInvisible(LedgerOf(f), EffectOf(c, f, y));
    } else {
      SameEffectAgrees(LedgerOf(e), LedgerOf(f), EffectOf(c, e, x));
    }
  }

  // ---- whole runs -----------------------------------------------------------

  /** Non-interference.  Leave any HELLO and CONNECT datagrams out of a run, and let
      send results and clocks differ at will: trust, pending requests, sessions with
      their counters, stored requests, the received messages and the callbacks, in
      order, are the same. */
  lemma {:induction false} ControlTrafficDoesNotInterfere(c: Suite, e: Engine, f: Engine, xs: seq<Input>,
                                                          ys: seq<Input>)
    requires Agree(e, f) && Thins(xs, ys)
    ensures Agree(Final(c, e, xs), Final(c, f, ys))
    ensures Events(c, e, xs) == Events(c, f, ys)
    decreases |xs|
  {
    hide EngineModel.Step;
    hide Inbound;
    if xs != [] {
      var o := EngineModel.Step(c, e, xs[0]);
      if IsControl(xs[0]) && Thins(xs[1..], ys) {
        ControlIsInvisible(c, e, xs[0]);
        ControlTrafficDoesNotInterfere(c, o.st, f, xs[1..], ys);
        assert [] + Events(c, o.st, xs[1..]) == Events(c, o.st, xs[1..]);
      } else {
        StepsAgree(c, e, f, xs[0], ys[0]);
        ControlTrafficDoesNotInterfere(c, o.st, EngineModel.Step(c, f, ys[0]).st, xs[1..], ys[1..]);
      }
    }
  }
}
