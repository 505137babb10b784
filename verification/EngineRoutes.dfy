/** Where packets and probes go, read off the inputs of a run: a peer's endpoint, the
    course of its hole punching and every datagram sent are functions of the history. */
module EngineRoutes {
  import opened Octets
  import opened HexKeys
  import opened Wire
  import opened EndpointText
  import opened StoreCodec
  import opened Crypto
  import opened EngineModel
  import opened EngineSessions
  import opened EnginePaths
  import Sessions
  import Storage

  // ---- what an input means for one peer -------------------------------------

  /** Key agreement with the peer works. */
  predicate Agreed(c: Suite, e: Engine, peer: Bytes) { c.agree(e.secret, peer).Some? }

  lemma SessionIffAgreed(c: Suite, e: Engine, peer: Bytes)
    requires Sound(c, e, peer)
    ensures HasSession(c, e, peer) <==> Agreed(c, e, peer)
  {
    hide Hex;
  }

  /** The input is a packet of the peer that passes the gate and decrypts. */
  predicate Heard(c: Suite, e: Engine, x: Input, peer: Bytes)
  {
    && Polled(x).Some? && Polled(x).value.source == peer && !Gated(e, Polled(x).value)
    && Sessions.Decrypt(c, SessionWith(c, e, peer), Polled(x).value).1.Some?
  }

  /** A hole-punch probe of the peer, addressed to us. */
  predicate Probes(self: Bytes, x: Input, peer: Bytes)
  {
    && PolledKind(x, HELLO) && peer != []
    && Polled(x).value.source == peer && Polled(x).value.destination == self
  }

  /** The endpoint the input asks us to probe the peer at. */
  function Target(x: Input, peer: Bytes): Option<Endpoint>
  {
    if x.Connect? && x.peer == peer then Some(x.endpoint)
    else if PolledKind(x, CONNECT) && Polled(x).value.source == peer then ParseEndpoint(Polled(x).value.payload)
    else None
  }

  /** A sending call that passes its checks. */
  predicate Speaks(c: Suite, e: Engine, x: Input)
    requires IsSending(x)
  {
    && Agreed(c, e, x.peer)
    && match x
       case SendContactRequest(p, _, _, _, _) => Storage.TrustOf(e.db, p) != Some(ACCEPTED)
       case Send(p, _, _, _, _) => Storage.TrustOf(e.db, p) == Some(ACCEPTED)
       case _ => Hex(x.peer) in e.incoming
  }

  // ---- one input ------------------------------------------------------------

  function NextRelay(x: Input, was: Option<Endpoint>): Option<Endpoint>
  {
    match x
    case SetRelay(to) => Some(to)
    case Restart => None
    case _ => was
  }

  predicate NextProbed(self: Bytes, x: Input, peer: Bytes, was: bool)
  {
    !x.Restart? && (was || Probes(self, x, peer))
  }

  function NextRoute(c: Suite, e: Engine, x: Input, peer: Bytes, relay: Option<Endpoint>, probed: bool,
                     was: Option<Endpoint>): Option<Endpoint>
  {
    match x
    case Restart => None
    case AddPeer(p, to) => if p == peer && Agreed(c, e, peer) then Some(to) else was
    case SendContactRequest(p, to, _, _, _) => if p == peer && Speaks(c, e, x) then Some(to) else was
    case Connect(p, candidate, _) =>
      if p != peer then was else if relay.Some? then relay else Some(candidate)
    case Poll(_, _, _) =>
      if Probes(e.self, x, peer) then Some(x.datagram.value.from)
      else if Target(x, peer).Some? then if was.Some? then was else relay
      else if Heard(c, e, x, peer) && !probed then Some(x.datagram.value.from)
      else was
    case _ => was
  }

  /** A course of probing: where to, how many probes so far, and when the last one was. */
  datatype Course = Course(candidate: Endpoint, sent: int, last: int)

  predicate Repeats(x: Input, course: Option<Course>)
  {
    x.Tick? && course.Some? && course.value.sent < 12 && x.clock - course.value.last >= 250
  }

  function NextCourse(x: Input, peer: Bytes, was: Option<Course>): Option<Course>
  {
    if x.Restart? then None
    else if Target(x, peer).Some? then Some(Course(Target(x, peer).value, 1, ClockOf(x)))
    else if Repeats(x, was) then Some(Course(was.value.candidate, was.value.sent + 1, x.clock))
    else was
  }

  /** Where the input has us send the peer a probe. */
  function Owed(self: Bytes, x: Input, peer: Bytes, probed: bool, course: Option<Course>): Option<Endpoint>
  {
    if probed then None
    else if Target(x, peer).Some? then Target(x, peer)
    else if Repeats(x, course) then Some(course.value.candidate)
    else if Probes(self, x, peer) then Some(x.datagram.value.from)
    else None
  }

  // ---- one step -------------------------------------------------------------

  function EndpointOf(e: Engine, peer: Bytes): Option<Endpoint>
  {
    if Hex(peer) in e.endpoints then Some(e.endpoints[Hex(peer)]) else None
  }

  function CourseOf(e: Engine, peer: Bytes): Option<Course>
  {
    if Hex(peer) in e.probes
    then var p := e.probes[Hex(peer)]; Some(Course(p.candidate, p.attempts, p.last)) else None
  }

  /** Every probe is kept under its own peer's key. */
  ghost predicate Filed(e: Engine)
  {
    forall key :: key in e.probes ==> Hex(e.probes[key].peer) == key
  }

  /** The step does to the peer's path what the input means, and sends what it owes. */
  ghost predicate Follows(c: Suite, e: Engine, x: Input, o: Out, peer: Bytes)
  {
    var key, probed := Hex(peer), Confirmed(e, Hex(peer));
    var owed := Owed(e.self, x, peer, probed, CourseOf(e, peer));
    && o.st.relay == NextRelay(x, e.relay)
    && (Confirmed(o.st, key) <==> NextProbed(e.self, x, peer, probed))
    && EndpointOf(o.st, peer) == NextRoute(c, e, x, peer, e.relay, probed, EndpointOf(e, peer))
    && (!Confirmed(o.st, key) ==> CourseOf(o.st, peer) == NextCourse(x, peer, CourseOf(e, peer)))
    && (key in o.probes <==> owed.Some?) && (owed.Some? ==> o.probes[key] == ProbeTo(peer, owed.value))
  }

  lemma SendingKeepsPaths(c: Suite, e: Engine, x: Input)
    requires x.AddPeer? || x.SendContactRequest? || x.AcceptContact? || x.RejectContact? || x.Send?
    ensures var o := EngineModel.Step(c, e, x);
            && o.probes == map[] && o.st.probes == e.probes && o.st.relay == e.relay
            && o.st.endpoints ==
                 match x
                 case AddPeer(p, to) => if HasSession(c, e, p) then e.endpoints[Hex(p) := to] else e.endpoints
                 case SendContactRequest(p, to, _, _, _) =>
                   if Storage.TrustOf(e.db, p) != Some(ACCEPTED) && HasSession(c, e, p)
                   then e.endpoints[Hex(p) := to] else e.endpoints
                 case _ => e.endpoints
  {
    hide EnsureSession;
    hide SealAndSend;
    hide SetTrust;
    hide Storage.Without;
    hide Storage.TrustOf;
    hide Hex;
  }

  lemma SendingFollows(c: Suite, e: Engine, x: Input, peer: Bytes)
    requires x.AddPeer? || x.SendContactRequest? || x.AcceptContact? || x.RejectContact? || x.Send?
    requires Sound(c, e, peer)
    ensures Follows(c, e, x, EngineModel.Step(c, e, x), peer)
  {
    hide EngineModel.Step;
    hide HasSession;
    hide Sound;
    hide Storage.TrustOf;
    HexKeysAreFaithful();
    hide Hex;
    SendingKeepsPaths(c, e, x);
    SessionIffAgreed(c, e, peer);
  }

  lemma ConnectFollows(c: Suite, e: Engine, x: Input, peer: Bytes)
    requires x.Connect?
    ensures Follows(c, e, x, DoConnect(e, x.peer, x.endpoint, x.clock), peer)
  {
    HexKeysAreFaithful();
    hide Hex;
  }

  lemma TickFollows(c: Suite, e: Engine, x: Input, peer: Bytes)
    requires x.Tick? && Filed(e)
    ensures Follows(c, e, x, DoTick(e, x.clock), peer)
  {
    HexKeysAreFaithful();
    hide Hex;
  }

  lemma HelloFollows(c: Suite, e: Engine, x: Input, peer: Bytes)
    requires PolledKind(x, HELLO)
    ensures var p := Polled(x).value;
            Follows(c, e, x, if p.destination == e.self && p.source != []
                             then HandleProbe(e, p.source, x.datagram.value.from) else Quiet(e, true), peer)
  {
    HexKeysAreFaithful();
    hide Hex;
    hide Parse;
    hide ParseEndpoint;
    hide Sessions.Decrypt;
    hide SessionWith;
  }

  lemma AdvertFollows(c: Suite, e: Engine, x: Input, peer: Bytes)
    requires PolledKind(x, CONNECT)
    ensures Follows(c, e, x, HandleConnect(e, Polled(x).value.source, Polled(x).value.payload, x.clock), peer)
  {
    HexKeysAreFaithful();
    hide Hex;
    hide Parse;
    hide ParseEndpoint;
    hide Sessions.Decrypt;
    hide SessionWith;
  }

  lemma DispatchKeepsPaths(e: Engine, p: Packet, text: Bytes, now: i64)
    ensures var o := Dispatch(e, p, text, now);
            && o.probes == map[] && o.st.probes == e.probes && o.st.endpoints == e.endpoints && o.st.relay == e.relay
            && (o.ret <==> p.kind == MESSAGE || p.kind == CONTACT_REQUEST || p.kind == CONTACT_RESPONSE)
  {
    hide SetTrust;
    hide Rename;
    hide Storage.Apply;
    hide Storage.TrustOf;
    hide Hex;
  }

  lemma ReceivingFollows(c: Suite, e: Engine, x: Input, peer: Bytes)
    requires Polled(x).Some? && Polled(x).value.kind != HELLO && Polled(x).value.kind != CONNECT
    ensures Follows(c, e, x, Receive(c, e, Polled(x).value, x.datagram.value.from, x.now), peer)
  {
    HexKeysAreFaithful();
    hide Hex;
    hide Parse;
    hide ParseEndpoint;
    hide Sessions.Decrypt;
    hide SessionWith;
    hide Admit;
    hide Dispatch;
    hide Storage.TrustOf;
    var p := Polled(x).value;
    var (e1, text) := Admit(c, e, p);
    AdmittedIffHeard(c, e, x);
    if text.Some? { DispatchKeepsPaths(TrackAddress(e1, p.source, x.datagram.value.from), p, text.value, x.now); }
  }

  lemma AdmittedIffHeard(c: Suite, e: Engine, x: Input)
    requires Polled(x).Some? && Polled(x).value.kind != HELLO && Polled(x).value.kind != CONNECT
    ensures Admit(c, e, Polled(x).value).1.Some? <==> Heard(c, e, x, Polled(x).value.source)
  {
    hide Sessions.Decrypt;
    hide SessionWith;
    hide EnsureSession;
    hide Storage.TrustOf;
    hide Parse;
    hide Hex;
    var p := Polled(x).value;
    if !Gated(e, p) { AdmissionUsesSession(c, e, p, p.source); }
  }

  lemma QuietFollows(c: Suite, e: Engine, x: Input, o: Out, peer: Bytes)
    requires x.SetNickname? || x.SetRelay? || (x.Poll? && Polled(x).None?)
    requires o.probes == map[] && o.st == e.(db := o.st.db, relay := o.st.relay) && o.st.relay == NextRelay(x, e.relay)
    ensures Follows(c, e, x, o, peer)
  {
    hide Hex;
  }

  lemma RestartFollows(c: Suite, e: Engine, peer: Bytes)
    ensures Follows(c, e, Restart, EngineModel.Step(c, e, Restart), peer)
  {
    hide Hex;
  }

  lemma StepFollows(c: Suite, e: Engine, x: Input, peer: Bytes)
    requires Sound(c, e, peer) && Filed(e)
    ensures Follows(c, e, x, EngineModel.Step(c, e, x), peer)
  {
    hide Follows;
    hide Sound;
    hide Parse;
    hide DoAddPeer;
    hide DoSendContactRequest;
    hide DoAnswer;
    hide DoSend;
    hide DoConnect;
    hide DoTick;
    hide HandleProbe;
    hide HandleConnect;
    hide Receive;
    hide Rename;
    hide Hex;
    match x
    case Tick(_) => TickFollows(c, e, x, peer);
    case Connect(_, _, _) => ConnectFollows(c, e, x, peer);
    case Restart => RestartFollows(c, e, peer);
    case SetNickname(_, _) => QuietFollows(c, e, x, EngineModel.Step(c, e, x), peer);
    case SetRelay(_) => QuietFollows(c, e, x, EngineModel.Step(c, e, x), peer);
    case Poll(_, _, _) =>
      if PolledKind(x, HELLO) { HelloFollows(c, e, x, peer); }
      else if PolledKind(x, CONNECT) { AdvertFollows(c, e, x, peer); }
      else if Polled(x).Some? { ReceivingFollows(c, e, x, peer); }
      else { QuietFollows(c, e, x, EngineModel.Step(c, e, x), peer); }
    case _ => SendingFollows(c, e, x, peer);
  }

  ghost predicate AllFiled(o: Out)
  {
    Filed(o.st) && forall key :: key in o.probes ==> Hex(o.probes[key].peer) == key
  }

  lemma ProbingKeepsFiled(e: Engine, peer: Bytes, to: Endpoint, clock: int)
    requires Filed(e)
    ensures AllFiled(StartProbing(e, peer, to, clock)) && AllFiled(HandleProbe(e, peer, to))
  {
    hide Hex;
  }

  lemma TickKeepsFiled(e: Engine, clock: int)
    requires Filed(e)
    ensures AllFiled(DoTick(e, clock))
  {
    hide Hex;
  }

  lemma ConnectKeepsFiled(e: Engine, peer: Bytes, to: Endpoint, payload: Bytes, clock: int)
    requires Filed(e)
    ensures AllFiled(DoConnect(e, peer, to, clock)) && AllFiled(HandleConnect(e, peer, payload, clock))
  {
    hide StartProbing;
    hide ParseEndpoint;
    hide Hex;
    var active := if e.relay.Some? then e.relay.value else to;
    ProbingKeepsFiled(e.(endpoints := e.endpoints[Hex(peer) := active]), peer, to, clock);
    if ParseEndpoint(payload).Some? {
      var candidate := ParseEndpoint(payload).value;
      ProbingKeepsFiled(e, peer, candidate, clock);
      if e.relay.Some? {
        ProbingKeepsFiled(e.(endpoints := e.endpoints[Hex(peer) := e.relay.value]), peer, candidate, clock);
      }
    }
  }

  lemma StepKeepsFiled(c: Suite, e: Engine, x: Input)
    requires Filed(e)
    ensures AllFiled(EngineModel.Step(c, e, x))
  {
    hide Parse;
    hide DoAddPeer;
    hide DoSendContactRequest;
    hide DoAnswer;
    hide DoSend;
    hide DoConnect;
    hide DoTick;
    hide HandleProbe;
    hide HandleConnect;
    hide Receive;
    hide Rename;
    hide Hex;
    match x
    case Connect(peer, to, clock) => ConnectKeepsFiled(e, peer, to, [], clock);
    case Tick(clock) => TickKeepsFiled(e, clock);
    case Poll(_, _, _) =>
      if Polled(x).Some? {
        var p, from := Polled(x).value, x.datagram.value.from;
        ProbingKeepsFiled(e, p.source, from, x.clock);
        ConnectKeepsFiled(e, p.source, from, p.payload, x.clock);
        ReceivingLeavesPaths(c, e, p, from, x.now);
      }
    case SetNickname(_, _) =>
    case SetRelay(_) =>
    case Restart =>
    case _ => SendingKeepsPaths(c, e, x);
  }

  // ---- what goes out --------------------------------------------------------

  /** Where a packet for the peer goes: its endpoint, else the relay, else nowhere. */
  function Destination(route: Option<Endpoint>, relay: Option<Endpoint>): Option<Endpoint>
  {
    if route.Some? then route else relay
  }

  /** The end of every sending call. */
  lemma SealingSends(c: Suite, e: Engine, peer: Bytes, kind: byte, text: Bytes, nonce: Bytes, ok: bool)
    requires Hex(peer) in e.sessions
    ensures var o := SealAndSend(c, e, peer, kind, text, nonce, ok);
            var to := Destination(EndpointOf(o.st, peer), e.relay);
            && (o.packet.Some? <==> to.Some?) && (o.packet.Some? ==> o.packet.value.to == to.value)
            && (o.ret <==> to.Some? && ok)
  {
    hide Sessions.EncryptAs;
    hide Hex;
  }

  /** A sending call that passes its checks hands one packet to the socket, if there is
      anywhere to send it, for there; and it returns what the socket said. */
  lemma StepSends(c: Suite, e: Engine, x: Input)
    requires IsSending(x) && Sound(c, e, x.peer)
    ensures var o := EngineModel.Step(c, e, x);
            var to := Destination(EndpointOf(o.st, x.peer), e.relay);
            && (o.packet.Some? <==> Speaks(c, e, x) && to.Some?)
            && (o.packet.Some? ==> o.packet.value.to == to.value)
            && (o.ret <==> o.packet.Some? && x.ok)
  {
    hide EnsureSession;
    hide SealAndSend;
    hide SetTrust;
    hide Storage.Without;
    hide Storage.TrustOf;
    hide Sound;
    hide Agreed;
    hide Hex;
    SessionIffAgreed(c, e, x.peer);
    if Speaks(c, e, x) {
      var e1 := EnsureSession(c, e, x.peer).value;
      if x.SendContactRequest? {
        var e2 := e1.(endpoints := e1.endpoints[Hex(x.peer) := x.endpoint], outgoing := e1.outgoing + {Hex(x.peer)},
                      db := SetTrust(e1.db, x.peer, PENDING));
        SealingSends(c, e2, x.peer, CONTACT_REQUEST, x.greeting, x.nonce, x.ok);
      } else if x.Send? {
        SealingSends(c, e1, x.peer, MESSAGE, x.plaintext, x.nonce, x.ok);
      } else {
        var db := e1.db.(requests := Storage.Without(e1.db.requests, x.peer));
        var trust := if x.AcceptContact? then ACCEPTED else REJECTED;
        var e2 := e1.(incoming := e1.incoming - {Hex(x.peer)}, db := SetTrust(db, x.peer, trust));
        SealingSends(c, e2, x.peer, CONTACT_RESPONSE, [if x.AcceptContact? then ACCEPT else REJECT], x.nonce, x.ok);
      }
    }
  }

  /** What the other calls return, and that they hand no packet to the socket. */
  lemma StepReturns(c: Suite, e: Engine, x: Input)
    requires !IsSending(x) && (x.AddPeer? ==> Sound(c, e, x.peer))
    ensures var o := EngineModel.Step(c, e, x);
            && o.packet == None
            && (o.ret <==>
                  match x
                  case AddPeer(p, _) => Agreed(c, e, p)
                  case Poll(_, _, _) =>
                    (match Polled(x)
                     case None => false
                     case Some(p) =>
                       p.kind == HELLO || p.kind == CONNECT ||
                       (Heard(c, e, x, p.source) &&
                        (p.kind == MESSAGE || p.kind == CONTACT_REQUEST || p.kind == CONTACT_RESPONSE)))
                  case _ => true)
  {
    hide EnsureSession;
    hide SetTrust;
    hide Rename;
    hide Storage.TrustOf;
    hide Parse;
    hide HandleProbe;
    hide HandleConnect;
    hide DoConnect;
    hide DoTick;
    hide Admit;
    hide Dispatch;
    hide Heard;
    hide Sound;
    hide Agreed;
    hide Hex;
    if x.AddPeer? { SessionIffAgreed(c, e, x.peer); }
    if Polled(x).Some? && Polled(x).value.kind != HELLO && Polled(x).value.kind != CONNECT {
      var p := Polled(x).value;
      AdmittedIffHeard(c, e, x);
      var (e1, text) := Admit(c, e, p);
      if text.Some? {
        var e2 := TrackAddress(e1, p.source, x.datagram.value.from);
        DispatchKeepsPaths(e2, p, text.value, x.now);
        DispatchKeepsSessions(e2, p, text.value, x.now);
      }
    }
  }

  // ---- whole runs -----------------------------------------------------------
  // Each of these reads the inputs of a run backwards; none looks at endpoints or probes.

  function RelayAt(run: seq<Entry>, n: nat): Option<Endpoint>
    requires n <= |run|
  {
    if n == 0 then None else NextRelay(run[n - 1].x, RelayAt(run, n - 1))
  }

  predicate ProbedAt(run: seq<Entry>, n: nat, peer: Bytes)
    requires n <= |run|
  {
    n > 0 && NextProbed(run[n - 1].pre.self, run[n - 1].x, peer, ProbedAt(run, n - 1, peer))
  }

  function RouteAt(c: Suite, run: seq<Entry>, n: nat, peer: Bytes): Option<Endpoint>
    requires n <= |run|
  {
    if n == 0 then None else
      var en := run[n - 1];
      NextRoute(c, en.pre, en.x, peer, RelayAt(run, n - 1), ProbedAt(run, n - 1, peer), RouteAt(c, run, n - 1, peer))
  }

  function CourseAt(run: seq<Entry>, n: nat, peer: Bytes): Option<Course>
    requires n <= |run|
  {
    if n == 0 then None else NextCourse(run[n - 1].x, peer, CourseAt(run, n - 1, peer))
  }

  /** The state agrees with the readings. */
  ghost predicate Charted(c: Suite, e: Engine, run: seq<Entry>, n: nat, peer: Bytes)
    requires n <= |run|
  {
    && Filed(e) && Sound(c, e, peer)
    && e.relay == RelayAt(run, n) && (Confirmed(e, Hex(peer)) <==> ProbedAt(run, n, peer))
    && EndpointOf(e, peer) == RouteAt(c, run, n, peer)
    && (!ProbedAt(run, n, peer) ==> CourseOf(e, peer) == CourseAt(run, n, peer))
  }

  /** Over any run of an engine that starts with nothing but a store: the relay, whether
      a direct path is confirmed, the peer's endpoint, and the course of its probing are
      what the inputs, read backwards, say. */
  lemma {:induction false} RoutesAreCharted(c: Suite, first: Engine, run: seq<Entry>, n: nat, peer: Bytes)
    requires IsRun(c, first, run) && n <= |run| && first == Boot(first.self, first.secret, first.db)
    ensures Charted(c, At(first, run, n), run, n, peer)
  {
    hide EngineModel.Step;
    hide Sound;
    hide NextRoute;
    hide NextCourse;
    hide NextProbed;
    hide NextRelay;
    hide Owed;
    hide Hex;
    if n == 0 {
      BootIsSound(c, first, peer);
    } else {
      RoutesAreCharted(c, first, run, n - 1, peer);
      assert IsStep(c, first, run, n - 1);
      var e, x := run[n - 1].pre, run[n - 1].x;
      StepKeepsSound(c, e, x, peer);
      StepKeepsFiled(c, e, x);
      StepFollows(c, e, x, peer);
      ConfirmedOnlyByProbe(e, x, peer);
    }
  }

  lemma BootIsSound(c: Suite, e: Engine, peer: Bytes)
    requires e.sessions == map[]
    ensures Sound(c, e, peer)
  {
  }

  /** A path that is not confirmed after a call was not before it. */
  lemma ConfirmedOnlyByProbe(e: Engine, x: Input, peer: Bytes)
    ensures !x.Restart? && Confirmed(e, Hex(peer)) ==> NextProbed(e.self, x, peer, Confirmed(e, Hex(peer)))
    ensures x.Restart? ==> NextCourse(x, peer, CourseOf(e, peer)) == None
    ensures x.Restart? ==> forall was :: NextCourse(x, peer, was) == None
  {
  }

  /** Every packet handed to the socket goes to the endpoint the history gives its peer,
      else to the relay the history gives; a sending call that passes its checks sends
      exactly then; no other call ever does. */
  lemma PacketsFollowRoutes(c: Suite, first: Engine, run: seq<Entry>, i: nat)
    requires IsRun(c, first, run) && i < |run| && first == Boot(first.self, first.secret, first.db)
    ensures var x, o := run[i].x, run[i].out;
            if !IsSending(x) then o.packet == None
            else
              var to := Destination(RouteAt(c, run, i + 1, x.peer), RelayAt(run, i));
              && (o.packet.Some? <==> Speaks(c, run[i].pre, x) && to.Some?)
              && (o.packet.Some? ==> o.packet.value.to == to.value)
              && (o.ret <==> o.packet.Some? && x.ok)
  {
    hide EngineModel.Step;
    hide Sound;
    hide RouteAt;
    hide RelayAt;
    hide ProbedAt;
    hide CourseAt;
    hide Speaks;
    hide Hex;
    assert IsStep(c, first, run, i);
    var x := run[i].x;
    if IsSending(x) {
      RoutesAreCharted(c, first, run, i, x.peer);
      RoutesAreCharted(c, first, run, i + 1, x.peer);
      StepSends(c, run[i].pre, x);
    } else {
      if x.AddPeer? { RoutesAreCharted(c, first, run, i, x.peer); }
      StepReturns(c, run[i].pre, x);
    }
  }

  /** Every probe that is owed is sent, once and to where it is owed, and no other. */
  lemma ProbesAreOwed(c: Suite, first: Engine, run: seq<Entry>, i: nat, peer: Bytes)
    requires IsRun(c, first, run) && i < |run| && first == Boot(first.self, first.secret, first.db)
    ensures var owed := Owed(run[i].pre.self, run[i].x, peer, ProbedAt(run, i, peer), CourseAt(run, i, peer));
            var probes := run[i].out.probes;
            && (Hex(peer) in probes <==> owed.Some?)
            && (owed.Some? ==> probes[Hex(peer)] == ProbeTo(peer, owed.value))
            && forall key :: key in probes ==> key == Hex(probes[key].peer)
  {
    hide EngineModel.Step;
    hide Sound;
    hide NextRoute;
    hide NextCourse;
    hide NextProbed;
    hide NextRelay;
    hide Target;
    hide Probes;
    hide Hex;
    assert IsStep(c, first, run, i);
    RoutesAreCharted(c, first, run, i, peer);
    StepFollows(c, run[i].pre, run[i].x, peer);
    StepKeepsFiled(c, run[i].pre, run[i].x);
  }

  /** An endpoint advertised for a peer without a direct path is probed at once, with
      exactly one datagram, and the relay, if there is one, becomes the way to a peer
      that had none. */
  lemma AdvertIsProbed(c: Suite, first: Engine, run: seq<Entry>, i: nat, peer: Bytes, to: Endpoint)
    requires IsRun(c, first, run) && i < |run| && first == Boot(first.self, first.secret, first.db)
    requires PolledKind(run[i].x, CONNECT) && Polled(run[i].x).value.source == peer
    requires ParseEndpoint(Polled(run[i].x).value.payload) == Some(to) && !ProbedAt(run, i, peer)
    ensures run[i].out.probes == map[Hex(peer) := ProbeTo(peer, to)]
    ensures RouteAt(c, run, i + 1, peer) == Destination(RouteAt(c, run, i, peer), RelayAt(run, i))
  {
    hide EngineModel.Step;
    hide Hex;
    hide Parse;
    hide ParseEndpoint;
    ProbesAreOwed(c, first, run, i, peer);
    forall key | key in run[i].out.probes
      ensures key == Hex(peer)
    {
      var other := run[i].out.probes[key].peer;
      ProbesAreOwed(c, first, run, i, other);
    }
  }

  /** Step i is a tick at least 250 ms after the step before it. */
  predicate TicksLater(run: seq<Entry>, i: nat)
    requires 0 < i < |run|
  {
    run[i].x.Tick? && ClockOf(run[i].x) - ClockOf(run[i - 1].x) >= 250
  }

  /** The budget is used up: from a start of probing, as long as no probe of the peer
      comes in, ticks at least 250 ms apart send it eleven more, and then none. */
  lemma {:induction false} TicksUseTheBudget(c: Suite, first: Engine, run: seq<Entry>, s: nat, k: nat, peer: Bytes)
    requires IsRun(c, first, run) && 0 < k && s + k < |run| && first == Boot(first.self, first.secret, first.db)
    requires Target(run[s].x, peer).Some? && !ProbedAt(run, s, peer)
    requires forall j :: s < j <= s + k ==> TicksLater(run, j)
    ensures Hex(peer) in run[s + k].out.probes <==> k <= 11
    ensures k <= 11 ==> run[s + k].out.probes[Hex(peer)] == ProbeTo(peer, Target(run[s].x, peer).value)
  {
    hide EngineModel.Step;
    hide Hex;
    hide ParseEndpoint;
    hide Parse;
    assert TicksLater(run, s + k);
    ProbesAreOwed(c, first, run, s + k, peer);
    TickingCourse(run, s, k - 1, peer);
  }

  lemma {:induction false} TickingCourse(run: seq<Entry>, s: nat, k: nat, peer: Bytes)
    requires s + k < |run| && Target(run[s].x, peer).Some? && !ProbedAt(run, s, peer)
    requires forall j :: s < j <= s + k ==> TicksLater(run, j)
    ensures !ProbedAt(run, s + k + 1, peer)
    ensures var course := CourseAt(run, s + k + 1, peer);
            && course.Some? && course.value.candidate == Target(run[s].x, peer).value
            && (k <= 11 ==> course.value.sent == k + 1 && course.value.last == ClockOf(run[s + k].x))
            && (k > 11 ==> course.value.sent == 12)
  {
    hide ParseEndpoint;
    hide Parse;
    if k > 0 {
      assert TicksLater(run, s + k);
      TickingCourse(run, s, k - 1, peer);
    }
  }

  // ---- punching through -----------------------------------------------------

  /** The poll receives a probe from one key to another. */
  predicate CarriesProbe(y: Input, from: Bytes, to: Bytes)
  {
    y.Poll? && y.datagram.Some? && y.datagram.value.data == Serialize(ProbePacket(from, to))
  }

  /** A probe that arrives opens the path back to where it came from, and the first one
      is answered there. */
  lemma ProbeConfirms(c: Suite, e: Engine, y: Input, peer: Bytes)
    requires Sound(c, e, peer) && Filed(e) && CarriesProbe(y, peer, e.self)
    requires peer != [] && FitsField(peer) && FitsField(e.self)
    ensures var o := EngineModel.Step(c, e, y);
            && Confirmed(o.st, Hex(peer)) && EndpointOf(o.st, peer) == Some(y.datagram.value.from)
            && (if Confirmed(e, Hex(peer)) then Hex(peer) !in o.probes
                else Hex(peer) in o.probes && o.probes[Hex(peer)] == ProbeTo(peer, y.datagram.value.from))
  {
    hide EngineModel.Step;
    hide Sound;
    hide Filed;
    hide Parse;
    hide Serialize;
    hide ParseEndpoint;
    hide Heard;
    hide Hex;
    RoundTrip(ProbePacket(peer, e.self));
    StepFollows(c, e, y, peer);
  }

  /** One probe that gets through either way is enough: b, reached by a's probe, answers it
      where it came from, and the answer opens a's path to b; each then sends straight to
      where the other's probe came from. */
  lemma PunchCompletes(c: Suite, a: Engine, b: Engine, x: Input, y: Input)
    requires Sound(c, a, b.self) && Sound(c, b, a.self) && Filed(a) && Filed(b)
    requires a.self != [] && b.self != [] && FitsField(a.self) && FitsField(b.self) && !Confirmed(b, Hex(a.self))
    requires CarriesProbe(x, a.self, b.self) && CarriesProbe(y, b.self, a.self)
    ensures var o, r := EngineModel.Step(c, b, x), EngineModel.Step(c, a, y);
            && Hex(a.self) in o.probes && o.probes[Hex(a.self)] == ProbeTo(a.self, x.datagram.value.from)
            && Confirmed(o.st, Hex(a.self)) && EndpointOf(o.st, a.self) == Some(x.datagram.value.from)
            && Confirmed(r.st, Hex(b.self)) && EndpointOf(r.st, b.self) == Some(y.datagram.value.from)
  {
    hide EngineModel.Step;
    hide Sound;
    hide Filed;
    hide Serialize;
    hide Hex;
    ProbeConfirms(c, b, x, a.self);
    ProbeConfirms(c, a, y, b.self);
  }
}
