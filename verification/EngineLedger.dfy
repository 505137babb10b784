/** What a step does to the database and the pending requests, told apart from
    what it does to sessions and paths. */
module EngineLedger {
  import opened Octets
  import opened HexKeys
  import opened Wire
  import opened EndpointText
  import opened StoreCodec
  import opened Crypto
  import opened EngineModel
  import Storage

  datatype Ledger = Ledger(db: Db, incoming: set<string>, outgoing: set<string>)

  function LedgerOf(e: Engine): Ledger { Ledger(e.db, e.incoming, e.outgoing) }

  datatype Effect =
    | Nothing
    | Trust(peer: Bytes)                                // add_peer
    | Name(peer: Bytes, name: Bytes)                    // set_nickname
    | Ask(peer: Bytes)                                  // send_contact_request
    | Answer(peer: Bytes, accept: bool)                 // accept_contact, reject_contact
    | Log(message: Message)                             // send, a delivered message
    | Surface(peer: Bytes, greeting: Bytes, now: i64)   // a first contact request
    | Respond(peer: Bytes, accepted: bool)              // an answer to our request
    | Reboot

  function Apply(l: Ledger, f: Effect): Ledger
  {
    match f
    case Nothing => l
    case Trust(peer) => l.(db := SetTrust(l.db, peer, ACCEPTED))
    case Name(peer, name) => l.(db := Rename(l.db, peer, name))
    case Ask(peer) => l.(db := SetTrust(l.db, peer, PENDING), outgoing := l.outgoing + {Hex(peer)})
    case Answer(peer, accept) =>
      var db := l.db.(requests := Storage.Without(l.db.requests, peer));
      l.(db := SetTrust(db, peer, if accept then ACCEPTED else REJECTED), incoming := l.incoming - {Hex(peer)})
    case Log(m) => l.(db := l.db.(messages := l.db.messages + [m]))
    case Surface(peer, greeting, now) =>
      var db1 := SetTrust(l.db, peer, PENDING);
      var db2 := if greeting == [] then db1 else Rename(db1, peer, greeting);
      l.(db := Storage.Apply(db2, Storage.AddRequest(Request(peer, greeting, now))),
         incoming := l.incoming + {Hex(peer)})
    case Respond(peer, accepted) =>
      l.(db := SetTrust(l.db, peer, if accepted then ACCEPTED else REJECTED), outgoing := l.outgoing - {Hex(peer)})
    case Reboot => Ledger(l.db, RequestKeys(l.db.requests), {})
  }

  /** The guard under which the code has each effect. */
  predicate Allowed(l: Ledger, f: Effect)
  {
    match f
    case Ask(peer) => Storage.TrustOf(l.db, peer) != Some(ACCEPTED)
    case Answer(peer, _) => Hex(peer) in l.incoming
    case Log(m) => Storage.TrustOf(l.db, m.peer) == Some(ACCEPTED)
    case Surface(peer, _, _) => Storage.TrustOf(l.db, peer).None? && Hex(peer) !in l.incoming
    case Respond(peer, _) => Hex(peer) in l.outgoing
    case _ => true
  }

  /** The effect of a step. */
  function EffectOf(c: Suite, e: Engine, x: Input): Effect
  {
    match x
    case AddPeer(peer, _) => if HasSession(c, e, peer) then Trust(peer) else Nothing
    case SetNickname(peer, name) => Name(peer, name)
    case SendContactRequest(peer, _, _, _, _) =>
      if Allowed(LedgerOf(e), Ask(peer)) && HasSession(c, e, peer) then Ask(peer) else Nothing
    case AcceptContact(peer, _, _) =>
      if Allowed(LedgerOf(e), Answer(peer, true)) && HasSession(c, e, peer) then Answer(peer, true) else Nothing
    case RejectContact(peer, _, _) =>
      if Allowed(LedgerOf(e), Answer(peer, false)) && HasSession(c, e, peer) then Answer(peer, false) else Nothing
    case Send(peer, plaintext, _, _, now) =>
      if EngineModel.Step(c, e, x).ret then Log(Message(peer, plaintext, true, now)) else Nothing
    case Poll(_, now, _) =>
      (match Polled(x)
       case None => Nothing
       case Some(p) => if p.kind == HELLO || p.kind == CONNECT then Nothing else ReceiptEffect(c, e, p, now))
    case Restart => Reboot
    case _ => Nothing
  }

  function ReceiptEffect(c: Suite, e: Engine, p: Packet, now: i64): Effect
  {
    match Admit(c, e, p).1
    case None => Nothing
    case Some(text) => DispatchEffect(LedgerOf(e), p, text, now)
  }

  function DispatchEffect(l: Ledger, p: Packet, text: Bytes, now: i64): Effect
  {
    if p.kind == MESSAGE then Log(Message(p.source, text, false, now))
    else if p.kind == CONTACT_REQUEST && Allowed(l, Surface(p.source, text, now)) then Surface(p.source, text, now)
    else if p.kind == CONTACT_RESPONSE && Hex(p.source) in l.outgoing then
      Respond(p.source, text != [] && text[0] == ACCEPT)
    else Nothing
  }

  function EventOf(f: Effect): Option<Event>
  {
    match f
    case Log(m) => if m.outgoing then None else Some(MessageDelivered(m.peer, m.text))
    case Surface(peer, greeting, _) => Some(RequestSurfaced(peer, greeting))
    case Respond(peer, accepted) => Some(ResponseSurfaced(peer, accepted))
    case _ => None
  }

  lemma ReceiptHasItsEffect(c: Suite, e: Engine, p: Packet, from: Endpoint, now: i64)
    ensures var o := Receive(c, e, p, from, now);
            var f := ReceiptEffect(c, e, p, now);
            Allowed(LedgerOf(e), f) && LedgerOf(o.st) == Apply(LedgerOf(e), f) && o.event == EventOf(f)
  {
    hide Admit;
    hide TrackAddress;
    hide SetTrust;
    hide Rename;
    hide Storage.Apply;
    hide Storage.TrustOf;
    hide Hex;
  }

  ghost predicate HasEffect(c: Suite, e: Engine, x: Input)
  {
    var o := EngineModel.Step(c, e, x);
    var f := EffectOf(c, e, x);
    Allowed(LedgerOf(e), f) && LedgerOf(o.st) == Apply(LedgerOf(e), f) && o.event == EventOf(f)
  }

  lemma AnswerHasItsEffect(c: Suite, e: Engine, x: Input)
    requires x.AcceptContact? || x.RejectContact?
    ensures HasEffect(c, e, x)
  {
    hide EnsureSession;
    hide SealAndSend;
    hide SetTrust;
    hide Storage.Without;
    hide Hex;
  }

  lemma SendingHasItsEffect(c: Suite, e: Engine, x: Input)
    requires x.AddPeer? || x.SendContactRequest? || x.Send?
    ensures HasEffect(c, e, x)
  {
    hide EnsureSession;
    hide SealAndSend;
    hide SetTrust;
    hide Storage.TrustOf;
    hide Hex;
  }

  /** A step changes the ledger by its effect, whose guard held, and makes the
      callback of that effect. */
  lemma StepHasItsEffect(c: Suite, e: Engine, x: Input)
    ensures HasEffect(c, e, x)
  {
    hide DoConnect;
    hide DoTick;
    hide HandleProbe;
    hide HandleConnect;
    hide DoAddPeer;
    hide DoSendContactRequest;
    hide DoAnswer;
    hide DoSend;
    hide SetTrust;
    hide Storage.TrustOf;
    hide Rename;
    hide RequestKeys;
    hide Parse;
    hide Receive;
    hide ReceiptEffect;
    hide Hex;
    match x
    case AddPeer(_, _) => SendingHasItsEffect(c, e, x);
    case SendContactRequest(_, _, _, _, _) => SendingHasItsEffect(c, e, x);
    case AcceptContact(_, _, _) => AnswerHasItsEffect(c, e, x);
    case RejectContact(_, _, _) => AnswerHasItsEffect(c, e, x);
    case Send(_, _, _, _, _) => SendingHasItsEffect(c, e, x);
    case Poll(_, now, _) =>
      if Polled(x).Some? { ReceiptHasItsEffect(c, e, Polled(x).value, x.datagram.value.from, now); }
    case _ =>
  }
}
