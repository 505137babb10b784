/** The engine's dealings with one peer are the run of one session: sessions are
    made on demand, but a session not made yet behaves like a new one. */
module EngineSessions {
  import opened Octets
  import opened HexKeys
  import opened Wire
  import opened EndpointText
  import opened StoreCodec
  import opened Crypto
  import opened EngineModel
  import Sessions
  import Storage

  /** The session with a peer, made or still to be made. */
  function SessionWith(c: Suite, e: Engine, peer: Bytes): Sessions.Session
  {
    if Hex(peer) in e.sessions then e.sessions[Hex(peer)] else Sessions.New(c, e.self, e.secret, peer)
  }

  /** A session is made only when its key agreement succeeds. */
  predicate MadeWithKey(c: Suite, before: Engine, after: Engine, peer: Bytes)
  {
    Hex(peer) in after.sessions ==> Hex(peer) in before.sessions || SessionWith(c, before, peer).key.Some?
  }

  /** A packet stopped before any session sees it. */
  predicate Gated(e: Engine, p: Packet)
  {
    p.kind == HELLO || p.kind == CONNECT ||
    (p.kind == MESSAGE && Storage.TrustOf(e.db, p.source) != Some(ACCEPTED))
  }

  /** The use a step makes of its session with a peer, if it makes any. */
  function UseOf(c: Suite, e: Engine, x: Input, peer: Bytes): Option<Sessions.Use>
  {
    match x
    case SendContactRequest(p, _, greeting, nonce, _) =>
      if p == peer && Storage.TrustOf(e.db, p) != Some(ACCEPTED) && HasSession(c, e, p)
      then Some(Sessions.Sending(CONTACT_REQUEST, greeting, nonce)) else None
    case AcceptContact(p, nonce, _) =>
      if p == peer && Hex(p) in e.incoming && HasSession(c, e, p)
      then Some(Sessions.Sending(CONTACT_RESPONSE, [ACCEPT], nonce)) else None
    case RejectContact(p, nonce, _) =>
      if p == peer && Hex(p) in e.incoming && HasSession(c, e, p)
      then Some(Sessions.Sending(CONTACT_RESPONSE, [REJECT], nonce)) else None
    case Send(p, plaintext, nonce, _, _) =>
      if p == peer && Storage.TrustOf(e.db, p) == Some(ACCEPTED) && HasSession(c, e, p)
      then Some(Sessions.Sending(MESSAGE, plaintext, nonce)) else None
    case Poll(_, _, _) =>
      (match Polled(x)
       case None => None
       case Some(p) => if p.source == peer && !Gated(e, p) then Some(Sessions.Receiving(p)) else None)
    case _ => None
  }

  function SessionAfter(c: Suite, s: Sessions.Session, use: Option<Sessions.Use>): Sessions.Session
  {
    match use
    case None => s
    case Some(u) => Sessions.Step(c, s, u)
  }

  lemma EnsureKeepsSessions(c: Suite, e: Engine, peer: Bytes, other: Bytes)
    requires HasSession(c, e, peer)
    ensures SessionWith(c, EnsureSession(c, e, peer).value, other) == SessionWith(c, e, other)
    ensures EnsureSession(c, e, peer).value.sessions[Hex(peer)] == SessionWith(c, e, peer)
    ensures MadeWithKey(c, e, EnsureSession(c, e, peer).value, other)
  {
    if Hex(peer) == Hex(other) { HexInjective(peer, other); }
  }

  /** Sealing: the session advances, every other stays, and the packet handed to
      the socket is the session's next. */
  lemma SealingUsesSession(c: Suite, e: Engine, peer: Bytes, kind: byte, text: Bytes, nonce: Bytes, ok: bool,
                           other: Bytes)
    requires Hex(peer) in e.sessions
    ensures var o := SealAndSend(c, e, peer, kind, text, nonce, ok);
            var (s, p) := Sessions.EncryptAs(c, e.sessions[Hex(peer)], kind, text, nonce);
            && SessionWith(c, o.st, other) == (if other == peer then s else SessionWith(c, e, other))
            && o.st.sessions.Keys == e.sessions.Keys
            && (o.packet.Some? ==> o.packet.value.packet == p) && (o.ret ==> o.packet.Some?)
  {
    hide Sessions.EncryptAs;
    if Hex(peer) == Hex(other) { HexInjective(peer, other); }
  }

  /** Receiving: what is let in is what the session decrypts. */
  lemma AdmissionUsesSession(c: Suite, e: Engine, p: Packet, other: Bytes)
    requires !(p.kind == MESSAGE && Storage.TrustOf(e.db, p.source) != Some(ACCEPTED))
    ensures var (e1, text) := Admit(c, e, p);
            var (s, t) := Sessions.Decrypt(c, SessionWith(c, e, p.source), p);
            && text == t && MadeWithKey(c, e, e1, other)
            && SessionWith(c, e1, other) == if other == p.source then s else SessionWith(c, e, other)
  {
    hide AssociatedData;
    if HasSession(c, e, p.source) { EnsureKeepsSessions(c, e, p.source, other); }
    if Hex(p.source) == Hex(other) { HexInjective(p.source, other); }
  }

  lemma DispatchKeepsSessions(e: Engine, p: Packet, text: Bytes, now: i64)
    ensures var o := Dispatch(e, p, text, now);
            o.st.sessions == e.sessions && o.st.self == e.self && o.st.secret == e.secret
            && o.packet == None && o.probes == map[]
  {
    hide SetTrust;
    hide Rename;
    hide Storage.Apply;
    hide Storage.TrustOf;
    hide Hex;
  }

  lemma ReceivingUsesSession(c: Suite, e: Engine, p: Packet, from: Endpoint, now: i64, peer: Bytes)
    requires p.kind != HELLO && p.kind != CONNECT
    ensures var o := Receive(c, e, p, from, now);
            && o.st.self == e.self && o.st.secret == e.secret && o.packet == None && o.probes == map[]
            && MadeWithKey(c, e, o.st, peer)
            && SessionWith(c, o.st, peer) ==
                 SessionAfter(c, SessionWith(c, e, peer),
                              if p.source == peer && !Gated(e, p) then Some(Sessions.Receiving(p)) else None)
  {
    hide Sessions.Decrypt;
    hide Sessions.New;
    hide Storage.TrustOf;
    hide TrackAddress;
    hide Dispatch;
    hide Hex;
    var (e1, text) := Admit(c, e, p);
    if !Gated(e, p) { AdmissionUsesSession(c, e, p, peer); }
    if text.Some? { DispatchKeepsSessions(TrackAddress(e1, p.source, from), p, text.value, now); }
  }

  /** Every step but a restart makes its use, and only its use, of each session;
      and a packet it hands to the socket is the next of the session it sends on. */
  lemma StepUsesSession(c: Suite, e: Engine, x: Input, peer: Bytes)
    requires !x.Restart?
    ensures var o := Step(c, e, x);
            && o.st.self == e.self && o.st.secret == e.secret && MadeWithKey(c, e, o.st, peer)
            && SessionWith(c, o.st, peer) == SessionAfter(c, SessionWith(c, e, peer), UseOf(c, e, x, peer))
  {
    hide DoSendContactRequest;
    hide DoAnswer;
    hide DoSend;
    hide EnsureSession;
    hide Sessions.Step;
    hide Sessions.New;
    hide SetTrust;
    hide Rename;
    hide Storage.TrustOf;
    hide Receive;
    hide Parse;
    hide DoConnect;
    hide DoTick;
    hide HandleProbe;
    hide HandleConnect;
    hide Hex;
    match x
    case AddPeer(p, _) => if HasSession(c, e, p) { EnsureKeepsSessions(c, e, p, peer); }
    case SendContactRequest(p, endpoint, greeting, nonce, ok) =>
      AskUsesSession(c, e, p, endpoint, greeting, nonce, ok, peer);
    case AcceptContact(p, nonce, ok) => AnswerUsesSession(c, e, p, ACCEPTED, ACCEPT, nonce, ok, peer);
    case RejectContact(p, nonce, ok) => AnswerUsesSession(c, e, p, REJECTED, REJECT, nonce, ok, peer);
    case Send(p, text, nonce, ok, now) => SendUsesSession(c, e, p, text, nonce, ok, now, peer);
    case Poll(_, now, _) =>
      if Polled(x).Some? {
        var p := Polled(x).value;
        if p.kind != HELLO && p.kind != CONNECT {
          ReceivingUsesSession(c, e, p, x.datagram.value.from, now, peer);
        }
      }
    case _ =>
  }

  /** The packet a sending use produces. */
  function Sealed(c: Suite, e: Engine, to: Bytes, use: Sessions.Use): Packet
    requires use.Sending?
  {
    Sessions.EncryptAs(c, SessionWith(c, e, to), use.kind, use.plaintext, use.nonce).1
  }

  /** What a sending entry point owes its session. */
  ghost predicate SendsOn(c: Suite, e: Engine, o: Out, to: Bytes, use: Option<Sessions.Use>, peer: Bytes)
    requires use.Some? ==> use.value.Sending?
  {
    && o.st.self == e.self && o.st.secret == e.secret && MadeWithKey(c, e, o.st, peer)
    && SessionWith(c, o.st, peer) ==
         (if to == peer then SessionAfter(c, SessionWith(c, e, peer), use) else SessionWith(c, e, peer))
    && (o.ret ==> o.packet.Some?)
    && (o.packet.Some? ==> use.Some?)
    && (o.packet.Some? ==> o.packet.value.packet == Sealed(c, e, to, use.value))
  }

  lemma AskUsesSession(c: Suite, e: Engine, p: Bytes, endpoint: Endpoint, greeting: Bytes, nonce: Bytes, ok: bool,
                       peer: Bytes)
    ensures SendsOn(c, e, DoSendContactRequest(c, e, p, endpoint, greeting, nonce, ok), p,
                    UseOf(c, e, SendContactRequest(p, endpoint, greeting, nonce, ok), p), peer)
  {
    hide SealAndSend;
    hide EnsureSession;
    hide Sessions.EncryptAs;
    hide Sessions.New;
    hide SetTrust;
    hide Storage.TrustOf;
    hide Hex;
    if Storage.TrustOf(e.db, p) != Some(ACCEPTED) && HasSession(c, e, p) {
      EnsureKeepsSessions(c, e, p, peer);
      var e1 := EnsureSession(c, e, p).value;
      var e2 := e1.(endpoints := e1.endpoints[Hex(p) := endpoint], outgoing := e1.outgoing + {Hex(p)},
                    db := SetTrust(e1.db, p, PENDING));
      SealingUsesSession(c, e2, p, CONTACT_REQUEST, greeting, nonce, ok, peer);
    }
  }

  lemma AnswerUsesSession(c: Suite, e: Engine, p: Bytes, trust: byte, answer: byte, nonce: Bytes, ok: bool, peer: Bytes)
    ensures var use := if Hex(p) in e.incoming && HasSession(c, e, p)
                       then Some(Sessions.Sending(CONTACT_RESPONSE, [answer], nonce)) else None;
            SendsOn(c, e, DoAnswer(c, e, p, trust, answer, nonce, ok), p, use, peer)
  {
    hide SealAndSend;
    hide EnsureSession;
    hide Sessions.EncryptAs;
    hide Sessions.New;
    hide SetTrust;
    hide Storage.Without;
    hide Hex;
    if Hex(p) in e.incoming && HasSession(c, e, p) {
      EnsureKeepsSessions(c, e, p, peer);
      var e1 := EnsureSession(c, e, p).value;
      var db := e1.db.(requests := Storage.Without(e1.db.requests, p));
      var e2 := e1.(incoming := e1.incoming - {Hex(p)}, db := SetTrust(db, p, trust));
      SealingUsesSession(c, e2, p, CONTACT_RESPONSE, [answer], nonce, ok, peer);
    }
  }

  lemma SendUsesSession(c: Suite, e: Engine, p: Bytes, text: Bytes, nonce: Bytes, ok: bool, now: i64, peer: Bytes)
    ensures SendsOn(c, e, DoSend(c, e, p, text, nonce, ok, now), p,
                    UseOf(c, e, Send(p, text, nonce, ok, now), p), peer)
  {
    hide SealAndSend;
    hide EnsureSession;
    hide Sessions.EncryptAs;
    hide Sessions.New;
    hide Storage.TrustOf;
    hide Hex;
    if Storage.TrustOf(e.db, p) == Some(ACCEPTED) && HasSession(c, e, p) {
      EnsureKeepsSessions(c, e, p, peer);
      SealingUsesSession(c, EnsureSession(c, e, p).value, p, MESSAGE, text, nonce, ok, peer);
    }
  }

  predicate IsSending(x: Input) { x.SendContactRequest? || x.AcceptContact? || x.RejectContact? || x.Send? }

  /** A packet is handed to the socket only by a sending entry point, and it is the
      next packet of the session with the peer it is for. */
  lemma StepSeals(c: Suite, e: Engine, x: Input)
    ensures var o := Step(c, e, x);
            o.packet.Some? ==>
              IsSending(x) && UseOf(c, e, x, x.peer).Some? && UseOf(c, e, x, x.peer).value.Sending?
              && o.packet.value.packet == Sealed(c, e, x.peer, UseOf(c, e, x, x.peer).value)
    ensures x.Send? && Step(c, e, x).ret ==> Step(c, e, x).packet.Some?
  {
    hide DoSendContactRequest;
    hide DoAnswer;
    hide DoSend;
    hide EnsureSession;
    hide Sealed;
    hide SessionWith;
    hide SetTrust;
    hide Rename;
    hide Storage.TrustOf;
    hide Receive;
    hide Parse;
    hide DoConnect;
    hide DoTick;
    hide HandleProbe;
    hide HandleConnect;
    hide Hex;
    match x
    case SendContactRequest(p, endpoint, greeting, nonce, ok) =>
      AskUsesSession(c, e, p, endpoint, greeting, nonce, ok, p);
    case AcceptContact(p, nonce, ok) => AnswerUsesSession(c, e, p, ACCEPTED, ACCEPT, nonce, ok, p);
    case RejectContact(p, nonce, ok) => AnswerUsesSession(c, e, p, REJECTED, REJECT, nonce, ok, p);
    case Send(p, text, nonce, ok, now) => SendUsesSession(c, e, p, text, nonce, ok, now, p);
    case Poll(_, now, _) =>
      if Polled(x).Some? {
        var p := Polled(x).value;
        if p.kind != HELLO && p.kind != CONNECT {
          ReceivingUsesSession(c, e, p, x.datagram.value.from, now, p.source);
        }
      }
    case _ =>
  }

  /** The session with a peer never changes hands: its ends are the engine and the
      peer and its key is theirs. */
  predicate Sound(c: Suite, e: Engine, peer: Bytes)
  {
    var s := SessionWith(c, e, peer);
    && s.local == e.self && s.remote == peer && s.key == c.agree(e.secret, peer)
    && (Hex(peer) in e.sessions ==> s.key.Some?)
  }

  lemma StepKeepsSound(c: Suite, e: Engine, x: Input, peer: Bytes)
    requires Sound(c, e, peer)
    ensures Sound(c, Step(c, e, x).st, peer)
  {
    if !x.Restart? {
      hide EngineModel.Step;
      hide UseOf;
      StepUsesSession(c, e, x, peer);
    }
  }

  lemma {:induction false} SoundHolds(c: Suite, first: Engine, run: seq<Entry>, peer: Bytes, n: nat)
    requires IsRun(c, first, run) && n <= |run| && Sound(c, first, peer)
    ensures Sound(c, At(first, run, n), peer)
  {
    hide EngineModel.Step;
    hide Sound;
    if n > 0 {
      SoundHolds(c, first, run, peer, n - 1);
      assert IsStep(c, first, run, n - 1);
      StepKeepsSound(c, run[n - 1].pre, run[n - 1].x, peer);
    }
  }

  ghost predicate AllSound(c: Suite, e: Engine)
  {
    forall peer: Bytes :: Sound(c, e, peer)
  }

  lemma StepKeepsAllSound(c: Suite, e: Engine, x: Input)
    requires AllSound(c, e)
    ensures AllSound(c, EngineModel.Step(c, e, x).st)
  {
    hide EngineModel.Step;
    hide Sound;
    forall peer: Bytes
      ensures Sound(c, EngineModel.Step(c, e, x).st, peer)
    {
      StepKeepsSound(c, e, x, peer);
    }
  }

  lemma IdentityStays(c: Suite, e: Engine, x: Input)
    ensures var f := EngineModel.Step(c, e, x).st; f.self == e.self && f.secret == e.secret
  {
    if !x.Restart? {
      hide EngineModel.Step;
      StepUsesSession(c, e, x, []);
    }
  }
}
