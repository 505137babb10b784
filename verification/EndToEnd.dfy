/** Two engines and the network between them.  The network may drop, duplicate,
    reorder, delay, redirect and inject datagrams at will; it just cannot make
    bytes that open under the two engines' shared key out of nothing. */
module EndToEnd {
  import opened Octets
  import opened HexKeys
  import opened Wire
  import opened StoreCodec
  import opened Crypto
  import opened EngineModel
  import opened EngineLedger
  import opened EngineSessions
  import opened Handshake
  import Sessions
  import Storage

  /** A message with the counter of the packet that carried it. */
  datatype Stamped = Stamped(counter: u64, text: Bytes)

  /** Both engines; the sealed packets either put on the wire; and, stamped, the
      messages a put on it for b and the messages b was delivered from a.  On a leaky
      network a packet may get out although its send reported failure. */
  datatype System = System(leaky: bool, a: Engine, b: Engine, wire: seq<Packet>, sent: seq<Stamped>, got: seq<Stamped>)

  datatype Move = ByA(x: Input) | ByB(x: Input)

  /** A packet was handed to the socket and can be on the wire. */
  predicate Emits(leaky: bool, o: Out) { o.packet.Some? && (leaky || o.ret) }

  function Transmitted(leaky: bool, o: Out): seq<Packet>
  {
    if Emits(leaky, o) then [o.packet.value.packet] else []
  }

  function SentTo(leaky: bool, peer: Bytes, x: Input, o: Out): seq<Stamped>
  {
    if x.Send? && x.peer == peer && Emits(leaky, o)
    then [Stamped(o.packet.value.packet.counter, x.plaintext)] else []
  }

  function GotFrom(peer: Bytes, x: Input, o: Out): seq<Stamped>
  {
    if Polled(x).Some? && o.event.Some? && o.event.value.MessageDelivered? && o.event.value.peer == peer
    then [Stamped(Polled(x).value.counter, o.event.value.plaintext)] else []
  }

  function Advance(c: Suite, s: System, m: Move): System
  {
    match m
    case ByA(x) =>
      var o := EngineModel.Step(c, s.a, x);
      s.(a := o.st, wire := s.wire + Transmitted(s.leaky, o), sent := s.sent + SentTo(s.leaky, s.b.self, x, o))
    case ByB(x) =>
      var o := EngineModel.Step(c, s.b, x);
      s.(b := o.st, wire := s.wire + Transmitted(s.leaky, o), got := s.got + GotFrom(s.a.self, x, o))
  }

  function Outcome(c: Suite, s: System, ms: seq<Move>): System
    decreases |ms|
  {
    if ms == [] then s else Outcome(c, Advance(c, s, ms[0]), ms[1..])
  }

  /** The one thing the network cannot do: a datagram polled by b as from a that opens
      under the shared key carries a payload and envelope some sent packet had. */
  ghost predicate Unforged(c: Suite, s: System, m: Move)
  {
    m.ByB? && Polled(m.x).Some? ==>
      var p := Polled(m.x).value;
      var key := c.agree(s.b.secret, s.a.self);
      p.source == s.a.self && p.destination == s.b.self &&
      key.Some? && c.open(key.value, p.payload, AssociatedData(p)).Some? ==>
        exists q :: q in s.wire && q.payload == p.payload && AssociatedData(q) == AssociatedData(p)
  }

  ghost predicate UnforgedRun(c: Suite, s: System, ms: seq<Move>)
    decreases |ms|
  {
    ms != [] ==> !ms[0].x.Restart? && Unforged(c, s, ms[0]) && UnforgedRun(c, Advance(c, s, ms[0]), ms[1..])
  }

  /** How many packets a may still number for b. */
  function SendsTo(peer: Bytes, ms: seq<Move>): nat
  {
    if ms == [] then 0 else
      SendsTo(peer, ms[1..]) + if ms[0].ByA? && IsSending(ms[0].x) && ms[0].x.peer == peer then 1 else 0
  }

  // ---- the logs -------------------------------------------------------------

  /** The texts logged with a peer in one direction, oldest first. */
  function Logged(ms: seq<Message>, peer: Bytes, outgoing: bool): seq<Bytes>
  {
    if ms == [] then [] else
      var front, m := Logged(ms[..|ms| - 1], peer, outgoing), ms[|ms| - 1];
      if m.peer == peer && m.outgoing == outgoing then front + [m.text] else front
  }

  function Texts(s: seq<Stamped>): (t: seq<Bytes>)
    ensures |t| == |s| && forall i :: 0 <= i < |s| ==> t[i] == s[i].text
  {
    seq(|s|, i requires 0 <= i < |s| => s[i].text)
  }

  lemma LoggedSnoc(ms: seq<Message>, m: Message, peer: Bytes, outgoing: bool)
    ensures Logged(ms + [m], peer, outgoing) ==
            Logged(ms, peer, outgoing) + if m.peer == peer && m.outgoing == outgoing then [m.text] else []
  {
    assert (ms + [m])[..|ms|] == ms;
  }

  // ---- what the system keeps ------------------------------------------------

  /** Two identities, one key between them, whoever computes it. */
  ghost predicate Paired(c: Suite, s: System)
  {
    && s.a.self != s.b.self
    && c.agree(s.a.secret, s.b.self).Some? && c.agree(s.a.secret, s.b.self) == c.agree(s.b.secret, s.a.self)
  }

  /** How many packets a has numbered for b; what b last received from a. */
  function Numbered(c: Suite, s: System): nat { SessionWith(c, s.a, s.b.self).sendCounter }
  function LastSeen(c: Suite, s: System): Option<u64> { SessionWith(c, s.b, s.a.self).lastReceived }

  ghost predicate Increasing(s: seq<Stamped>)
  {
    forall i, j :: 0 <= i < j < |s| ==> s[i].counter < s[j].counter
  }

  /** A message packet from a to b on the wire opens to the message a sent under
      its counter. */
  ghost predicate Genuine(c: Suite, s: System, q: Packet)
    requires Paired(c, s)
  {
    q.source == s.a.self && q.destination == s.b.self && q.kind == MESSAGE ==>
      var text := c.open(c.agree(s.a.secret, s.b.self).value, q.payload, AssociatedData(q));
      text.Some? && Stamped(q.counter, text.value) in s.sent
  }

  ghost predicate WireOk(c: Suite, s: System)
    requires Paired(c, s)
  {
    forall q :: q in s.wire ==> Genuine(c, s, q)
  }

  ghost predicate SentOk(c: Suite, s: System)
  {
    Increasing(s.sent) && forall m :: m in s.sent ==> m.counter < Numbered(c, s)
  }

  ghost predicate GotOk(c: Suite, s: System)
  {
    && Increasing(s.got)
    && forall m :: m in s.got ==> m in s.sent && LastSeen(c, s).Some? && m.counter <= LastSeen(c, s).value
  }

  ghost predicate Inv(c: Suite, s: System)
  {
    Paired(c, s) && AllSound(c, s.a) && AllSound(c, s.b) && WireOk(c, s) && SentOk(c, s) && GotOk(c, s)
  }

  // ---- one engine's step ----------------------------------------------------

  /** A transmitted packet, by an engine whose sessions are sound. */
  lemma SealedEnvelope(c: Suite, e: Engine, x: Input)
    requires AllSound(c, e) && EngineModel.Step(c, e, x).packet.Some?
    ensures var q := EngineModel.Step(c, e, x).packet.value.packet;
            && IsSending(x) && q.source == e.self && q.destination == x.peer
            && q.counter == SessionWith(c, e, x.peer).sendCounter
            && (q.kind == MESSAGE ==> x.Send?)
  {
    hide EngineModel.Step;
    hide SessionWith;
    hide AssociatedData;
    StepSeals(c, e, x);
    assert Sound(c, e, x.peer);
  }

  /** A message packet opens, under the key of its ends, to the message sent. */
  lemma SealedMessageOpens(c: Suite, e: Engine, x: Input)
    requires Correct(c) && AllSound(c, e) && EngineModel.Step(c, e, x).packet.Some?
    requires x.Send? && c.agree(e.secret, x.peer).Some?
    ensures var q := EngineModel.Step(c, e, x).packet.value.packet;
            c.open(c.agree(e.secret, x.peer).value, q.payload, AssociatedData(q)) == Some(x.plaintext)
  {
    hide EngineModel.Step;
    hide SessionWith;
    hide AssociatedData;
    StepSeals(c, e, x);
    assert Sound(c, e, x.peer);
    var s := SessionWith(c, e, x.peer);
    var q := EngineModel.Step(c, e, x).packet.value.packet;
    Sessions.AssociatedDataIgnoresPayload(Sessions.Envelope(s, MESSAGE), q);
  }

  lemma CounterAdvances(c: Suite, e: Engine, x: Input, peer: Bytes)
    requires !x.Restart? && (IsSending(x) && x.peer == peer ==> SessionWith(c, e, peer).sendCounter + 1 < TWO64)
    ensures var n := SessionWith(c, e, peer).sendCounter;
            var k := SessionWith(c, EngineModel.Step(c, e, x).st, peer).sendCounter;
            && n <= k <= n + (if IsSending(x) && x.peer == peer then 1 else 0)
            && (IsSending(x) && x.peer == peer && EngineModel.Step(c, e, x).packet.Some? ==> k == n + 1)
  {
    hide EngineModel.Step;
    hide SessionWith;
    hide HasSession;
    hide Storage.TrustOf;
    hide Sealed;
    hide Hex;
    hide AssociatedData;
    hide Parse;
    StepUsesSession(c, e, x, peer);
    StepSeals(c, e, x);
  }

  lemma {:induction false} LastReceivedGrowsOver(c: Suite, first: Engine, run: seq<Entry>, i: nat, j: nat, peer: Bytes)
    requires IsRun(c, first, run) && i <= j <= |run| && forall k :: 0 <= k < |run| ==> !run[k].x.Restart?
    ensures Sessions.NoLater(SessionWith(c, At(first, run, i), peer).lastReceived,
                             SessionWith(c, At(first, run, j), peer).lastReceived)
  {
    hide EngineModel.Step;
    hide SessionWith;
    if i < j {
      LastReceivedGrowsOver(c, first, run, i, j - 1, peer);
      assert IsStep(c, first, run, j - 1);
      LastReceivedGrows(c, run[j - 1].pre, run[j - 1].x, peer);
    }
  }

  /** Whatever the network does, a peer's messages are delivered in the order of
      their counters, and no packet is delivered twice in one lifetime. */
  lemma DeliveriesAdvance(c: Suite, first: Engine, run: seq<Entry>, i: nat, j: nat, peer: Bytes)
    requires IsRun(c, first, run) && i < j < |run| && forall k :: 0 <= k < |run| ==> !run[k].x.Restart?
    requires Sound(c, first, peer)
    requires GotFrom(peer, run[i].x, run[i].out) != [] && GotFrom(peer, run[j].x, run[j].out) != []
    ensures GotFrom(peer, run[i].x, run[i].out)[0].counter < GotFrom(peer, run[j].x, run[j].out)[0].counter
    ensures Polled(run[i].x) != Polled(run[j].x)
  {
    hide EngineModel.Step;
    hide SessionWith;
    hide Sound;
    hide Parse;
    assert IsStep(c, first, run, i) && IsStep(c, first, run, j);
    SoundHolds(c, first, run, peer, i);
    SoundHolds(c, first, run, peer, j);
    DeliveryOpens(c, run[i].pre, run[i].x, peer);
    DeliveryOpens(c, run[j].pre, run[j].x, peer);
    LastReceivedGrowsOver(c, first, run, i + 1, j, peer);
  }

  // ---- a moves --------------------------------------------------------------

  lemma WireGrows(c: Suite, s: System, t: System, o: Out)
    requires Paired(c, s) && Paired(c, t) && WireOk(c, s)
    requires t.a.self == s.a.self && t.b.self == s.b.self && t.a.secret == s.a.secret && s.sent <= t.sent
    requires t.wire == s.wire + Transmitted(s.leaky, o)
    requires Emits(s.leaky, o) ==> Genuine(c, t, o.packet.value.packet)
    ensures WireOk(c, t)
  {
    hide AssociatedData;
    forall q | q in t.wire
      ensures Genuine(c, t, q)
    {
      if q in s.wire {
        assert Genuine(c, s, q);
      }
    }
  }

  lemma AMoves(c: Suite, s: System, x: Input)
    requires Correct(c) && Inv(c, s) && !x.Restart?
    requires IsSending(x) && x.peer == s.b.self ==> Numbered(c, s) + 1 < TWO64
    ensures Inv(c, Advance(c, s, ByA(x)))
  {
    hide EngineModel.Step;
    hide SessionWith;
    hide Sound;
    hide AssociatedData;
    var t := Advance(c, s, ByA(x));
    var o := EngineModel.Step(c, s.a, x);
    StepUsesSession(c, s.a, x, s.b.self);
    StepKeepsAllSound(c, s.a, x);
    CounterAdvances(c, s.a, x, s.b.self);
    StepSeals(c, s.a, x);
    var news := SentTo(s.leaky, s.b.self, x, o);
    if Emits(s.leaky, o) {
      var q := o.packet.value.packet;
      SealedEnvelope(c, s.a, x);
      if q.kind == MESSAGE && q.destination == s.b.self {
        SealedMessageOpens(c, s.a, x);
        assert news == [Stamped(q.counter, x.plaintext)];
        assert Stamped(q.counter, x.plaintext) in t.sent;
      }
      assert Genuine(c, t, q);
    }
    WireGrows(c, s, t, o);
    SentGrows(c, s, t, news);
  }

  lemma SentGrows(c: Suite, s: System, t: System, news: seq<Stamped>)
    requires SentOk(c, s) && GotOk(c, s) && t.sent == s.sent + news && t.got == s.got && t.b == s.b &&
             t.a.self == s.a.self
    requires |news| <= 1 && Numbered(c, s) <= Numbered(c, t)
    requires news != [] ==> news[0].counter == Numbered(c, s) < Numbered(c, t)
    ensures SentOk(c, t) && GotOk(c, t)
  {
    hide SessionWith;
    forall i, j | 0 <= i < j < |t.sent|
      ensures t.sent[i].counter < t.sent[j].counter
    {
      assert t.sent[i] in s.sent;
    }
  }

  // ---- b moves --------------------------------------------------------------

  lemma DeliveredWasSent(c: Suite, s: System, x: Input)
    requires Inv(c, s) && !x.Restart? && Unforged(c, s, ByB(x))
    requires GotFrom(s.a.self, x, EngineModel.Step(c, s.b, x)) != []
    ensures var m := GotFrom(s.a.self, x, EngineModel.Step(c, s.b, x))[0];
            && m in s.sent
            && (LastSeen(c, s).Some? ==> LastSeen(c, s).value < m.counter)
            && SessionWith(c, EngineModel.Step(c, s.b, x).st, s.a.self).lastReceived == Some(m.counter)
  {
    var p := Polled(x).value;
    var m := GotFrom(s.a.self, x, EngineModel.Step(c, s.b, x))[0];
    assert Sound(c, s.b, s.a.self);
    DeliveryOpens(c, s.b, x, s.a.self);
    SerializeOfParse(x.datagram.value.data);
    hide EngineModel.Step;
    hide SessionWith;
    hide AssociatedData;
    hide Parse;
    var q :| q in s.wire && q.payload == p.payload && AssociatedData(q) == AssociatedData(p);
    FittingEnvelopeIsUnique(p, q);
    assert Genuine(c, s, q);
  }

  /** A delivered message came in a packet from that peer to this engine, newer than
      any before it, that opens to the message under their key. */
  lemma DeliveryOpens(c: Suite, e: Engine, x: Input, peer: Bytes)
    requires Sound(c, e, peer) && !x.Restart? && GotFrom(peer, x, EngineModel.Step(c, e, x)) != []
    ensures var p := Polled(x).value;
            var o := EngineModel.Step(c, e, x);
            var last := SessionWith(c, e, peer).lastReceived;
            && p.kind == MESSAGE && p.flags % 2 == 1 && p.source == peer && p.destination == e.self
            && c.agree(e.secret, peer).Some?
            && c.open(c.agree(e.secret, peer).value, p.payload, AssociatedData(p)) == Some(o.event.value.plaintext)
            && (last.Some? ==> last.value < p.counter)
            && SessionWith(c, o.st, peer).lastReceived == Some(p.counter)
  {
    hide EngineModel.Step;
    hide SessionWith;
    hide AssociatedData;
    hide Parse;
    hide Admit;
    StepHasItsEffect(c, e, x);
    StepUsesSession(c, e, x, peer);
    var p := Polled(x).value;
    AdmissionUsesSession(c, e, p, peer);
  }

  lemma LastReceivedGrows(c: Suite, e: Engine, x: Input, peer: Bytes)
    requires !x.Restart?
    ensures Sessions.NoLater(SessionWith(c, e, peer).lastReceived,
                             SessionWith(c, EngineModel.Step(c, e, x).st, peer).lastReceived)
  {
    hide EngineModel.Step;
    hide SessionWith;
    hide AssociatedData;
    hide UseOf;
    StepUsesSession(c, e, x, peer);
  }

  lemma BMoves(c: Suite, s: System, x: Input)
    requires Correct(c) && Inv(c, s) && !x.Restart? && Unforged(c, s, ByB(x))
    ensures Inv(c, Advance(c, s, ByB(x)))
  {
    hide EngineModel.Step;
    hide SessionWith;
    hide Sound;
    hide AssociatedData;
    hide Polled;
    var t := Advance(c, s, ByB(x));
    var o := EngineModel.Step(c, s.b, x);
    StepUsesSession(c, s.b, x, s.a.self);
    StepKeepsAllSound(c, s.b, x);
    LastReceivedGrows(c, s.b, x, s.a.self);
    if Emits(s.leaky, o) { SealedEnvelope(c, s.b, x); }
    WireGrows(c, s, t, o);
    var news := GotFrom(s.a.self, x, o);
    if news != [] { DeliveredWasSent(c, s, x); }
    GotGrows(c, s, t, news);
  }

  lemma GotGrows(c: Suite, s: System, t: System, news: seq<Stamped>)
    requires SentOk(c, s) && GotOk(c, s) && t.got == s.got + news && t.sent == s.sent && t.a == s.a &&
             t.b.self == s.b.self
    requires |news| <= 1 && Sessions.NoLater(LastSeen(c, s), LastSeen(c, t))
    requires news != [] ==>
               news[0] in s.sent && LastSeen(c, t) == Some(news[0].counter)
               && (LastSeen(c, s).Some? ==> LastSeen(c, s).value < news[0].counter)
    ensures SentOk(c, t) && GotOk(c, t)
  {
    hide SessionWith;
    forall i, j | 0 <= i < j < |t.got|
      ensures t.got[i].counter < t.got[j].counter
    {
      assert t.got[i] in s.got;
    }
  }

  // ---- whole runs -----------------------------------------------------------

  lemma {:induction false} InvHolds(c: Suite, s: System, ms: seq<Move>)
    requires Correct(c) && Inv(c, s) && UnforgedRun(c, s, ms)
    requires Numbered(c, s) + SendsTo(s.b.self, ms) < TWO64
    ensures Inv(c, Outcome(c, s, ms))
    decreases |ms|
  {
    hide EngineModel.Step;
    hide SessionWith;
    hide Inv;
    if ms != [] {
      MoveKeepsInv(c, s, ms);
      InvHolds(c, Advance(c, s, ms[0]), ms[1..]);
    }
  }

  lemma MoveKeepsInv(c: Suite, s: System, ms: seq<Move>)
    requires ms != [] && Correct(c) && Inv(c, s) && UnforgedRun(c, s, ms)
    requires Numbered(c, s) + SendsTo(s.b.self, ms) < TWO64
    ensures var t := Advance(c, s, ms[0]);
            Inv(c, t) && t.b.self == s.b.self && Numbered(c, t) + SendsTo(s.b.self, ms[1..]) < TWO64
  {
    hide EngineModel.Step;
    hide SessionWith;
    hide WireOk;
    hide GotOk;
    hide SentOk;
    hide AllSound;
    var x := ms[0].x;
    if ms[0].ByA? {
      AMoves(c, s, x);
      CounterAdvances(c, s.a, x, s.b.self);
    } else {
      BMoves(c, s, x);
      StepUsesSession(c, s.b, x, s.a.self);
    }
  }

  /** Only a successful send and a delivery write to the log. */
  lemma LogLines(c: Suite, e: Engine, x: Input)
    ensures var f := EffectOf(c, e, x);
            && (x.Send? && EngineModel.Step(c, e, x).ret ==> f == Log(Message(x.peer, x.plaintext, true, x.now)))
            && (x.Send? && !EngineModel.Step(c, e, x).ret ==> f == Nothing)
            && (!x.Send? && f.Log? ==> !f.message.outgoing && Polled(x).Some?)
  {
    hide EngineModel.Step;
    hide Parse;
    hide Admit;
    hide Allowed;
    hide Hex;
    hide HasSession;
  }

  lemma MessagesAfter(l: Ledger, f: Effect)
    ensures Apply(l, f).db.messages == l.db.messages + if f.Log? then [f.message] else []
  {
    hide Storage.Find;
    hide Storage.Upsert;
    hide Storage.Without;
    hide Hex;
  }

  /** The logs record exactly the stamped lists. */
  lemma StepLogs(c: Suite, e: Engine, x: Input, peer: Bytes)
    ensures var o := EngineModel.Step(c, e, x);
            && Logged(o.st.db.messages, peer, true) ==
                 Logged(e.db.messages, peer, true) + Texts(SentTo(false, peer, x, o))
            && Logged(o.st.db.messages, peer, false) == Logged(e.db.messages, peer, false) + Texts(GotFrom(peer, x, o))
  {
    hide EngineModel.Step;
    hide EffectOf;
    hide EngineLedger.Apply;
    hide Allowed;
    hide Polled;
    hide Sealed;
    hide UseOf;
    hide Logged;
    StepHasItsEffect(c, e, x);
    StepSeals(c, e, x);
    LogLines(c, e, x);
    var f := EffectOf(c, e, x);
    MessagesAfter(LedgerOf(e), f);
    var o := EngineModel.Step(c, e, x);
    if f.Log? {
      LoggedSnoc(e.db.messages, f.message, peer, true);
      LoggedSnoc(e.db.messages, f.message, peer, false);
      var mine := f.message.peer == peer;
      assert Texts(SentTo(false, peer, x, o)) == if mine && f.message.outgoing then [f.message.text] else [];
      assert Texts(GotFrom(peer, x, o)) == if mine && !f.message.outgoing then [f.message.text] else [];
    } else {
      assert e.db.messages + [] == e.db.messages;
      assert Texts(SentTo(false, peer, x, o)) == [] && Texts(GotFrom(peer, x, o)) == [];
    }
  }

  lemma TextsJoin(s: seq<Stamped>, t: seq<Stamped>)
    ensures Texts(s + t) == Texts(s) + Texts(t)
  {
  }

  /** What b logged from a over a run is what it was delivered. */
  lemma {:induction false} DeliveriesAreLogged(c: Suite, s: System, ms: seq<Move>, before: seq<Bytes>)
    requires Logged(s.b.db.messages, s.a.self, false) == before + Texts(s.got)
    ensures var t := Outcome(c, s, ms); Logged(t.b.db.messages, s.a.self, false) == before + Texts(t.got)
    decreases |ms|
  {
    hide EngineModel.Step;
    hide Logged;
    hide Texts;
    hide SentTo;
    hide GotFrom;
    if ms != [] {
      var t, x := Advance(c, s, ms[0]), ms[0].x;
      if ms[0].ByA? {
        IdentityStays(c, s.a, x);
      } else {
        StepLogs(c, s.b, x, s.a.self);
        TextsJoin(s.got, GotFrom(s.a.self, x, EngineModel.Step(c, s.b, x)));
      }
      assert Logged(t.b.db.messages, s.a.self, false) == before + Texts(t.got);
      DeliveriesAreLogged(c, t, ms[1..], before);
    }
  }

  /** What a logged to b over a run is what it put on the wire, if nothing leaks. */
  lemma {:induction false} SendsAreLogged(c: Suite, s: System, ms: seq<Move>, before: seq<Bytes>)
    requires !s.leaky && Logged(s.a.db.messages, s.b.self, true) == before + Texts(s.sent)
    ensures var t := Outcome(c, s, ms); Logged(t.a.db.messages, s.b.self, true) == before + Texts(t.sent)
    decreases |ms|
  {
    hide EngineModel.Step;
    hide Logged;
    hide Texts;
    hide SentTo;
    hide GotFrom;
    if ms != [] {
      var t, x := Advance(c, s, ms[0]), ms[0].x;
      if ms[0].ByA? {
        StepLogs(c, s.a, x, s.b.self);
        TextsJoin(s.sent, SentTo(false, s.b.self, x, EngineModel.Step(c, s.a, x)));
      } else {
        IdentityStays(c, s.b, x);
      }
      assert Logged(t.a.db.messages, s.b.self, true) == before + Texts(t.sent);
      SendsAreLogged(c, t, ms[1..], before);
    }
  }

  /** The texts a handed to the socket for b, whatever came of it. */
  function Handed(c: Suite, s: System, ms: seq<Move>): seq<Bytes>
    decreases |ms|
  {
    if ms == [] then [] else
      var rest := Handed(c, Advance(c, s, ms[0]), ms[1..]);
      if ms[0].ByA? && ms[0].x.Send? && ms[0].x.peer == s.b.self && EngineModel.Step(c, s.a, ms[0].x).packet.Some?
      then [ms[0].x.plaintext] + rest else rest
  }

  /** What a put on the wire over a run is what it handed to the socket, if all leaks. */
  lemma {:induction false} HandedIsSent(c: Suite, s: System, ms: seq<Move>)
    requires s.leaky
    ensures Texts(Outcome(c, s, ms).sent) == Texts(s.sent) + Handed(c, s, ms)
    decreases |ms|
  {
    hide EngineModel.Step;
    hide Texts;
    hide SentTo;
    hide Transmitted;
    hide GotFrom;
    if ms != [] {
      var t := Advance(c, s, ms[0]);
      HandedIsSent(c, t, ms[1..]);
      if ms[0].ByA? {
        var news := SentTo(true, s.b.self, ms[0].x, EngineModel.Step(c, s.a, ms[0].x));
        TextsJoin(s.sent, news);
        NewsText(s.b.self, ms[0].x, EngineModel.Step(c, s.a, ms[0].x));
        JoinTexts(Texts(s.sent), Texts(news), Handed(c, t, ms[1..]));
      }
    }
  }

  lemma NewsText(peer: Bytes, x: Input, o: Out)
    ensures Texts(SentTo(true, peer, x, o)) == if x.Send? && x.peer == peer && o.packet.Some? then [x.plaintext] else []
  {
  }

  lemma JoinTexts(a: seq<Bytes>, b: seq<Bytes>, d: seq<Bytes>)
    ensures a + b + d == a + (b + d) && [] + d == d
  {
  }

  /** xs is ys with some elements left out: same order, none twice, none new. */
  ghost predicate IsSubsequence(xs: seq<Bytes>, ys: seq<Bytes>)
  {
    exists at: seq<nat> :: Picks(at, xs, ys)
  }

  ghost predicate Picks(at: seq<nat>, xs: seq<Bytes>, ys: seq<Bytes>)
  {
    && |at| == |xs|
    && (forall i, j :: 0 <= i < j < |at| ==> at[i] < at[j])
    && forall i :: 0 <= i < |at| ==> at[i] < |ys| && ys[at[i]] == xs[i]
  }

  ghost function IndexIn(m: Stamped, s: seq<Stamped>): (i: nat)
    requires m in s
    ensures i < |s| && s[i] == m
  {
    var i: nat :| i < |s| && s[i] == m;
    i
  }

  lemma IncreasingSubset(got: seq<Stamped>, sent: seq<Stamped>)
    requires Increasing(got) && Increasing(sent) && forall m :: m in got ==> m in sent
    ensures IsSubsequence(Texts(got), Texts(sent))
  {
    var at: seq<nat> := seq(|got|, i requires 0 <= i < |got| => IndexIn(got[i], sent));
    forall i, j | 0 <= i < j < |at|
      ensures at[i] < at[j]
    {
      assert sent[at[i]] == got[i] && sent[at[j]] == got[j];
      assert got[i].counter < got[j].counter;
    }
    assert Picks(at, Texts(got), Texts(sent));
  }

  /** A system at the start of both processes, with whatever their stores held. */
  ghost predicate Fresh(c: Suite, s: System)
  {
    && s.a.sessions == map[] && s.b.sessions == map[]
    && s.wire == [] && s.sent == [] && s.got == [] && Paired(c, s)
  }

  lemma FreshHasInv(c: Suite, s: System)
    requires Fresh(c, s)
    ensures Inv(c, s) && Numbered(c, s) == 0
  {
  }

  /** What b logs from a, in one lifetime of each, is a subsequence of what a put on
      the wire. */
  lemma GotIsFromWire(c: Suite, s: System, ms: seq<Move>)
    requires Correct(c) && Fresh(c, s) && UnforgedRun(c, s, ms)
    requires SendsTo(s.b.self, ms) < TWO64
    ensures var t := Outcome(c, s, ms);
            var before, after := Logged(s.b.db.messages, s.a.self, false), Logged(t.b.db.messages, s.a.self, false);
            before <= after && IsSubsequence(after[|before|..], Texts(t.sent))
  {
    hide EngineModel.Step;
    hide SessionWith;
    hide UnforgedRun;
    hide Outcome;
    hide Logged;
    hide IsSubsequence;
    hide WireOk;
    hide AllSound;
    FreshHasInv(c, s);
    var before := Logged(s.b.db.messages, s.a.self, false);
    InvHolds(c, s, ms);
    assert before + Texts(s.got) == before;
    DeliveriesAreLogged(c, s, ms, before);
    IncreasingSubset(Outcome(c, s, ms).got, Outcome(c, s, ms).sent);
  }

  /** End-to-end order.  In one lifetime of each engine, on a network where a failed
      send stays off the wire, the messages b logs from a are a subsequence of the
      messages a logs to b. */
  lemma EndToEndOrder(c: Suite, s: System, ms: seq<Move>)
    requires Correct(c) && Fresh(c, s) && !s.leaky && UnforgedRun(c, s, ms)
    requires SendsTo(s.b.self, ms) < TWO64
    ensures var t := Outcome(c, s, ms);
            var sentBefore, sentAfter := Logged(s.a.db.messages, s.b.self, true),
                                         Logged(t.a.db.messages, s.b.self, true);
            var gotBefore, gotAfter := Logged(s.b.db.messages, s.a.self, false),
                                       Logged(t.b.db.messages, s.a.self, false);
            && sentBefore <= sentAfter && gotBefore <= gotAfter
            && IsSubsequence(gotAfter[|gotBefore|..], sentAfter[|sentBefore|..])
  {
    hide EngineModel.Step;
    hide UnforgedRun;
    hide Outcome;
    hide Logged;
    hide IsSubsequence;
    hide Paired;
    hide Correct;
    var before := Logged(s.a.db.messages, s.b.self, true);
    assert before + Texts(s.sent) == before;
    SendsAreLogged(c, s, ms, before);
    GotIsFromWire(c, s, ms);
  }

  /** And on a network where a send may get out although it reported failure, they are
      a subsequence of the texts a handed to the socket: still in order, none twice,
      none invented. */
  lemma LeakyOrder(c: Suite, s: System, ms: seq<Move>)
    requires Correct(c) && Fresh(c, s) && s.leaky && UnforgedRun(c, s, ms)
    requires SendsTo(s.b.self, ms) < TWO64
    ensures var t := Outcome(c, s, ms);
            var before, after := Logged(s.b.db.messages, s.a.self, false), Logged(t.b.db.messages, s.a.self, false);
            before <= after && IsSubsequence(after[|before|..], Handed(c, s, ms))
  {
    hide EngineModel.Step;
    hide UnforgedRun;
    hide Outcome;
    hide Handed;
    hide Logged;
    hide IsSubsequence;
    hide Paired;
    hide Correct;
    assert Texts(s.sent) == [] && [] + Handed(c, s, ms) == Handed(c, s, ms);
    HandedIsSent(c, s, ms);
    GotIsFromWire(c, s, ms);
  }

  /** The log restricted to a peer is the conversation with it. */
  lemma {:induction false} LoggedIsConversation(ms: seq<Message>, peer: Bytes, outgoing: bool)
    ensures Logged(Storage.ConversationWith(ms, peer), peer, outgoing) == Logged(ms, peer, outgoing)
  {
    if ms != [] {
      var front, m := ms[..|ms| - 1], ms[|ms| - 1];
      LoggedIsConversation(front, peer, outgoing);
      LoggedSnoc(front, m, peer, outgoing);
      assert front + [m] == ms;
      if m.peer == peer { LoggedSnoc(Storage.ConversationWith(front, peer), m, peer, outgoing); }
    }
  }

  /** So the order is that of what `conversation` shows at either end: what b's
      conversation with a has received in the run is a subsequence of what a's
      conversation with b has sent in it. */
  lemma ConversationOrder(c: Suite, s: System, ms: seq<Move>)
    requires Correct(c) && Fresh(c, s) && !s.leaky && UnforgedRun(c, s, ms)
    requires SendsTo(s.b.self, ms) < TWO64
    ensures var t := Outcome(c, s, ms);
            var sentBefore := Logged(Storage.ConversationWith(s.a.db.messages, s.b.self), s.b.self, true);
            var sentAfter := Logged(Storage.ConversationWith(t.a.db.messages, s.b.self), s.b.self, true);
            var gotBefore := Logged(Storage.ConversationWith(s.b.db.messages, s.a.self), s.a.self, false);
            var gotAfter := Logged(Storage.ConversationWith(t.b.db.messages, s.a.self), s.a.self, false);
            && sentBefore <= sentAfter && gotBefore <= gotAfter
            && IsSubsequence(gotAfter[|gotBefore|..], sentAfter[|sentBefore|..])
  {
    hide UnforgedRun;
    hide Outcome;
    hide Logged;
    hide IsSubsequence;
    hide Fresh;
    hide Correct;
    hide Storage.ConversationWith;
    var t := Outcome(c, s, ms);
    LoggedIsConversation(s.a.db.messages, s.b.self, true);
    LoggedIsConversation(t.a.db.messages, s.b.self, true);
    LoggedIsConversation(s.b.db.messages, s.a.self, false);
    LoggedIsConversation(t.b.db.messages, s.a.self, false);
    EndToEndOrder(c, s, ms);
  }

  // ---- delivery -------------------------------------------------------------

  /** One send and one poll of its datagram: b delivers exactly that text, and logs it,
      if and only if the packet is not oversized and nothing newer came first. */
  lemma SentIsDelivered(c: Suite, a: Engine, b: Engine, x: Input, y: Input)
    requires Correct(c) && Sound(c, a, b.self) && Sound(c, b, a.self)
    requires c.agree(a.secret, b.self) == c.agree(b.secret, a.self)
    requires x.Send? && x.peer == b.self && EngineModel.Step(c, a, x).ret && EngineModel.Step(c, a, x).packet.Some?
    requires y.Poll? && y.datagram.Some? &&
             y.datagram.value.data == Serialize(EngineModel.Step(c, a, x).packet.value.packet)
    requires Storage.TrustOf(b.db, a.self) == Some(ACCEPTED)
    ensures var q := EngineModel.Step(c, a, x).packet.value.packet;
            var last := SessionWith(c, b, a.self).lastReceived;
            var through := FitsField(q.payload) && (last.Some? ==> last.value < q.counter);
            var o := EngineModel.Step(c, b, y);
            && o.event == (if through then Some(MessageDelivered(a.self, x.plaintext)) else None)
            && Logged(o.st.db.messages, a.self, false) ==
                 Logged(b.db.messages, a.self, false) + if through then [x.plaintext] else []
  {
    hide EngineModel.Step;
    hide SessionWith;
    hide Sound;
    hide Admit;
    hide Serialize;
    hide Correct;
    hide Storage.TrustOf;
    hide EngineLedger.Apply;
    hide Allowed;
    hide EffectOf;
    hide Logged;
    var q := EngineModel.Step(c, a, x).packet.value.packet;
    SealedPacket(c, a, x);
    SealedIsAdmitted(c, a, b, x);
    PollOfSealed(c, b, q, y);
    StepHasItsEffect(c, b, y);
    StepLogs(c, b, y, a.self);
  }

  /** Soundness over any run of the system, restarts included. */
  lemma {:induction false} OutcomeIsSound(c: Suite, s: System, ms: seq<Move>)
    requires AllSound(c, s.a) && AllSound(c, s.b)
    ensures var t := Outcome(c, s, ms);
            && AllSound(c, t.a) && AllSound(c, t.b) && t.a.self == s.a.self && t.b.self == s.b.self
            && t.a.secret == s.a.secret && t.b.secret == s.b.secret
    decreases |ms|
  {
    hide EngineModel.Step;
    hide AllSound;
    if ms != [] {
      var e, x := if ms[0].ByA? then s.a else s.b, ms[0].x;
      StepKeepsAllSound(c, e, x);
      IdentityStays(c, e, x);
      OutcomeIsSound(c, Advance(c, s, ms[0]), ms[1..]);
    }
  }

  /** Delivery.  Whatever happened before a sends a message and between that and b
      polling its datagram, b delivers the text exactly when it counts a as a contact,
      the packet was not oversized, and b has accepted nothing newer from a. */
  lemma Delivery(c: Suite, s: System, before: seq<Move>, x: Input, between: seq<Move>, y: Input)
    requires Correct(c) && Fresh(c, s) && x.Send? && x.peer == s.b.self
    requires var t := Outcome(c, s, before); EngineModel.Step(c, t.a, x).ret && EngineModel.Step(c, t.a, x).packet.Some?
    requires y.Poll? && y.datagram.Some?
             && y.datagram.value.data == Serialize(EngineModel.Step(c, Outcome(c, s, before).a, x).packet.value.packet)
    ensures var t := Outcome(c, s, before);
            var q := EngineModel.Step(c, t.a, x).packet.value.packet;
            var u := Outcome(c, Advance(c, t, ByA(x)), between);
            EngineModel.Step(c, u.b, y).event == Some(MessageDelivered(s.a.self, x.plaintext)) <==>
              && Storage.TrustOf(u.b.db, s.a.self) == Some(ACCEPTED) && FitsField(q.payload)
              && (LastSeen(c, u).Some? ==> LastSeen(c, u).value < q.counter)
  {
    hide EngineModel.Step;
    hide SessionWith;
    hide AllSound;
    hide Serialize;
    hide Outcome;
    hide Correct;
    hide Storage.TrustOf;
    FreshIsSound(c, s);
    OutcomeIsSound(c, s, before);
    var t := Outcome(c, s, before);
    var v := Advance(c, t, ByA(x));
    StepKeepsAllSound(c, t.a, x);
    IdentityStays(c, t.a, x);
    OutcomeIsSound(c, v, between);
    DeliveredIff(c, t.a, Outcome(c, v, between).b, x, y);
  }

  lemma FreshIsSound(c: Suite, s: System)
    requires Fresh(c, s)
    ensures AllSound(c, s.a) && AllSound(c, s.b)
  {
  }

  lemma DeliveredIff(c: Suite, a: Engine, b: Engine, x: Input, y: Input)
    requires Correct(c) && AllSound(c, a) && AllSound(c, b)
    requires c.agree(a.secret, b.self) == c.agree(b.secret, a.self)
    requires x.Send? && x.peer == b.self && EngineModel.Step(c, a, x).ret && EngineModel.Step(c, a, x).packet.Some?
    requires y.Poll? && y.datagram.Some? &&
             y.datagram.value.data == Serialize(EngineModel.Step(c, a, x).packet.value.packet)
    ensures var q := EngineModel.Step(c, a, x).packet.value.packet;
            var last := SessionWith(c, b, a.self).lastReceived;
            EngineModel.Step(c, b, y).event == Some(MessageDelivered(a.self, x.plaintext)) <==>
              && Storage.TrustOf(b.db, a.self) == Some(ACCEPTED) && FitsField(q.payload)
              && (last.Some? ==> last.value < q.counter)
  {
    hide EngineModel.Step;
    hide SessionWith;
    hide Sound;
    hide Serialize;
    hide Correct;
    hide EffectOf;
    hide EngineLedger.Apply;
    hide Storage.TrustOf;
    if Storage.TrustOf(b.db, a.self) == Some(ACCEPTED) {
      assert Sound(c, a, b.self) && Sound(c, b, a.self);
      SentIsDelivered(c, a, b, x, y);
    } else {
      StepHasItsEffect(c, b, y);
    }
  }
}
