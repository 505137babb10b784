/** What the signaling server guarantees over whole traces, whoever sends to it. */
module SignalingProofs {
  import opened Octets
  import opened HexKeys
  import opened Wire
  import opened EndpointText
  import opened Crypto
  import opened Signaling
  import PeerTable

  /** A packet handled, or a sweep.  run_once is a packet (or none) and a sweep. */
  datatype Input = Packeted(packet: Packet, from: Endpoint, now: int, challenge: Bytes) | Swept(now: int)

  function Step(c: Suite, cfg: Config, s: Server, x: Input): (Server, Option<Outgoing>)
  {
    match x
    case Packeted(p, from, now, challenge) => Handle(c, cfg, s, p, from, now, challenge)
    case Swept(now) => (Sweep(cfg, s, now), None)
  }

  datatype Entry = Entry(pre: Server, x: Input, post: Server, reply: Option<Outgoing>)

  function At(trace: seq<Entry>, n: nat): Server
    requires n <= |trace|
  {
    if n == 0 then EMPTY else trace[n - 1].post
  }

  ghost predicate IsStep(c: Suite, cfg: Config, trace: seq<Entry>, i: nat)
    requires i < |trace|
  {
    trace[i].pre == At(trace, i) && (trace[i].post, trace[i].reply) == Step(c, cfg, trace[i].pre, trace[i].x)
  }

  /** A trace of a server that starts empty. */
  ghost predicate IsTrace(c: Suite, cfg: Config, trace: seq<Entry>)
  {
    forall i :: 0 <= i < |trace| ==> IsStep(c, cfg, trace, i)
  }

  // ---- injective agreement --------------------------------------------------

  predicate RepliesTo(en: Entry, key: Bytes, kind: byte)
  {
    en.x.Packeted? && en.x.packet.kind == REGISTER && en.x.packet.source == key &&
    en.reply.Some? && en.reply.value.packet.kind == kind
  }

  /** A challenge sent for key. */
  predicate IsHello(en: Entry, key: Bytes) { RepliesTo(en, key, HELLO) }

  /** A registration of key acknowledged. */
  predicate IsAck(en: Entry, key: Bytes) { RepliesTo(en, key, ACK) }

  /** The last challenge sent for key before step n. */
  function LastHello(trace: seq<Entry>, n: nat, key: Bytes): (r: Option<nat>)
    requires n <= |trace|
    ensures r.Some? ==> r.value < n && IsHello(trace[r.value], key)
    ensures forall i :: 0 <= i < n && IsHello(trace[i], key) ==> r.Some? && i <= r.value
  {
    if n == 0 then None else if IsHello(trace[n - 1], key) then Some(n - 1) else LastHello(trace, n - 1, key)
  }

  /** What a step does to the pending challenge of one key. */
  lemma StepOnPending(c: Suite, cfg: Config, s: Server, x: Input, key: Bytes)
    ensures var (t, reply) := Step(c, cfg, s, x);
            var en := Entry(s, x, t, reply);
            && (IsHello(en, key) ==> reply.value.to == x.from && Hex(key) in t.pending)
            && (IsHello(en, key) ==>
                  t.pending[Hex(key)] == Pending(reply.value.packet.payload, x.from, x.now + cfg.challengeTtl))
            && (!IsHello(en, key) && Hex(key) in t.pending ==>
                  !IsAck(en, key) && Hex(key) in s.pending && t.pending[Hex(key)] == s.pending[Hex(key)])
  {
    HexKeysAreFaithful();
    hide Hex;
    hide PeerTable.Expired;
    hide PeerTable.Lookup;
    hide ToText;
  }

  /** A pending challenge is the last one sent for its key, not answered yet. */
  lemma {:induction false} PendingIsLastHello(c: Suite, cfg: Config, trace: seq<Entry>, n: nat, key: Bytes)
    requires IsTrace(c, cfg, trace) && n <= |trace| && Hex(key) in At(trace, n).pending
    ensures var i := LastHello(trace, n, key);
            && i.Some?
            && At(trace, n).pending[Hex(key)] ==
                 Pending(trace[i.value].reply.value.packet.payload, trace[i.value].reply.value.to,
                         trace[i.value].x.now + cfg.challengeTtl)
            && forall j :: i.value < j < n ==> !IsAck(trace[j], key)
  {
    hide Step;
    hide Hex;
    if n > 0 {
      assert IsStep(c, cfg, trace, n - 1);
      var en := trace[n - 1];
      assert en == Entry(en.pre, en.x, en.post, en.reply);
      StepOnPending(c, cfg, en.pre, en.x, key);
      if !IsHello(en, key) { PendingIsLastHello(c, cfg, trace, n - 1, key); }
    }
  }

  lemma AckChecksPending(c: Suite, cfg: Config, s: Server, x: Input, key: Bytes)
    requires var (t, reply) := Step(c, cfg, s, x); IsAck(Entry(s, x, t, reply), key)
    ensures var reply := Step(c, cfg, s, x).1.value;
            && Hex(key) in s.pending && x.now <= s.pending[Hex(key)].expiry
            && s.pending[Hex(key)].endpoint == x.from == reply.to
            && c.verify(x.packet.payload, s.pending[Hex(key)].challenge, key)
            && reply.packet.payload == ToText(x.from)
  {
    hide Hex;
    hide ToText;
  }

  /** Agreement.  An acknowledged registration answers the last challenge the server
      sent for that key: it went to the same endpoint, was signed with the key, and
      had not expired. */
  lemma Agreement(c: Suite, cfg: Config, trace: seq<Entry>, j: nat, key: Bytes)
    requires IsTrace(c, cfg, trace) && j < |trace| && IsAck(trace[j], key)
    ensures var i := LastHello(trace, j, key);
            && i.Some?
            && trace[i.value].reply.value.to == trace[j].reply.value.to == trace[j].x.from
            && trace[j].x.now <= trace[i.value].x.now + cfg.challengeTtl
            && c.verify(trace[j].x.packet.payload, trace[i.value].reply.value.packet.payload, key)
            && forall k :: i.value < k < j ==> !IsAck(trace[k], key)
  {
    hide Step;
    hide Hex;
    assert IsStep(c, cfg, trace, j);
    var en := trace[j];
    assert en == Entry(en.pre, en.x, en.post, en.reply);
    AckChecksPending(c, cfg, en.pre, en.x, key);
    PendingIsLastHello(c, cfg, trace, j, key);
  }

  /** And it is injective: no challenge is answered by two registrations. */
  lemma InjectiveAgreement(c: Suite, cfg: Config, trace: seq<Entry>, j: nat, k: nat, keyJ: Bytes, keyK: Bytes)
    requires IsTrace(c, cfg, trace) && j < k < |trace|
    requires IsAck(trace[j], keyJ) && IsAck(trace[k], keyK)
    ensures LastHello(trace, j, keyJ).Some? && LastHello(trace, k, keyK).Some?
    ensures LastHello(trace, j, keyJ) != LastHello(trace, k, keyK)
  {
    hide Step;
    Agreement(c, cfg, trace, j, keyJ);
    Agreement(c, cfg, trace, k, keyK);
  }

  // ---- the registry agrees with the log -------------------------------------

  /** What a step logs about registrations. */
  function OpOf(en: Entry): PeerTable.Op
  {
    match en.x
    case Swept(now) => PeerTable.Sweep(now)
    case Packeted(p, from, now, _) =>
      if |p.source| != PUBLIC_KEY_BYTES then PeerTable.Skip
      else if p.kind == REGISTER && en.reply.Some? && en.reply.value.packet.kind == ACK then
        PeerTable.Put(Hex(p.source), from, now)
      else if p.kind == HEARTBEAT then PeerTable.Touch(Hex(p.source), from, now)
      else if p.kind == DISCONNECT then PeerTable.Drop(Hex(p.source))
      else PeerTable.Skip
  }

  function LogOf(trace: seq<Entry>): (log: seq<PeerTable.Op>)
    ensures |log| == |trace| && forall i :: 0 <= i < |trace| ==> log[i] == OpOf(trace[i])
  {
    seq(|trace|, i requires 0 <= i < |trace| => OpOf(trace[i]))
  }

  lemma StepLogsItself(c: Suite, cfg: Config, s: Server, x: Input)
    ensures var (t, reply) := Step(c, cfg, s, x);
            t.registry == PeerTable.Apply(cfg.peerTtl, s.registry, OpOf(Entry(s, x, t, reply)))
  {
    hide Hex;
    hide PeerTable.Expired;
    hide ToText;
  }

  lemma {:induction false} RegistryIsTable(c: Suite, cfg: Config, trace: seq<Entry>, n: nat)
    requires IsTrace(c, cfg, trace) && n <= |trace|
    ensures At(trace, n).registry == PeerTable.TableAt(cfg.peerTtl, LogOf(trace), n)
  {
    hide Step;
    hide PeerTable.Apply;
    hide OpOf;
    if n > 0 {
      RegistryIsTable(c, cfg, trace, n - 1);
      assert IsStep(c, cfg, trace, n - 1);
      var en := trace[n - 1];
      assert en == Entry(en.pre, en.x, en.post, en.reply);
      StepLogsItself(c, cfg, en.pre, en.x);
    }
  }

  ghost predicate ClockIsMonotone(trace: seq<Entry>)
  {
    forall i, j :: 0 <= i < j < |trace| ==> trace[i].x.now <= trace[j].x.now
  }

  /** On a monotone clock, a lookup at any point gives what reading the log backwards
      gives: the endpoint of the last registration or live heartbeat, unless the peer
      has left or been idle past the TTL. */
  lemma RegistryAgreesWithLog(c: Suite, cfg: Config, trace: seq<Entry>, n: nat, key: Bytes)
    requires IsTrace(c, cfg, trace) && n <= |trace| && ClockIsMonotone(trace)
    ensures var online := PeerTable.Online(cfg.peerTtl, LogOf(trace), n, Hex(key));
            && PeerTable.Lookup(At(trace, n).registry, Hex(key)) ==
                 (if online.Some? then Some(online.value.endpoint) else None)
            && (online.Some? ==> At(trace, n).registry[Hex(key)] == online.value)
  {
    hide Step;
    RegistryIsTable(c, cfg, trace, n);
    PeerTable.TableAgreesWithLog(cfg.peerTtl, LogOf(trace), n, Hex(key));
  }

  /** After a sweep, hence after every run_once, each entry is recent. */
  lemma RegistryIsRecent(c: Suite, cfg: Config, trace: seq<Entry>, n: nat, key: string)
    requires IsTrace(c, cfg, trace) && 0 < n <= |trace| && ClockIsMonotone(trace) && trace[n - 1].x.Swept?
    requires key in At(trace, n).registry
    ensures var now := trace[n - 1].x.now; now - cfg.peerTtl <= At(trace, n).registry[key].lastSeen <= now
  {
    hide Step;
    RegistryIsTable(c, cfg, trace, n);
    PeerTable.SweptEntriesAreRecent(cfg.peerTtl, LogOf(trace), n, key);
  }

  // ---- every reply, from the trace alone ------------------------------------

  /** A signature for key, good or bad, from an endpoint. */
  predicate IsAttempt(en: Entry, key: Bytes, from: Endpoint)
  {
    && en.x.Packeted? && en.x.packet.kind == REGISTER && en.x.packet.source == key
    && |en.x.packet.payload| == SIGNATURE_BYTES && en.x.from == from
  }

  /** The challenge of key that can still be answered at a time: the last one sent, not
      expired, and without any attempt from its endpoint since. */
  ghost predicate Stands(cfg: Config, trace: seq<Entry>, n: nat, key: Bytes, now: int)
    requires n <= |trace|
  {
    var i := LastHello(trace, n, key);
    && i.Some? && now <= trace[i.value].x.now + cfg.challengeTtl
    && forall k :: i.value < k < n ==> !IsAttempt(trace[k], key, trace[i.value].reply.value.to)
  }

  predicate Usable(s: Server, key: Bytes, now: int)
  {
    Hex(key) in s.pending && now <= s.pending[Hex(key)].expiry
  }

  lemma StepOnUsable(c: Suite, cfg: Config, s: Server, x: Input, key: Bytes, now: int)
    requires x.now <= now && |key| == PUBLIC_KEY_BYTES
    ensures var (t, reply) := Step(c, cfg, s, x);
            var en := Entry(s, x, t, reply);
            && (IsHello(en, key) ==> Hex(key) in t.pending)
            && (IsHello(en, key) ==> t.pending[Hex(key)].expiry == x.now + cfg.challengeTtl)
            && (!IsHello(en, key) ==>
                  (Usable(t, key, now) <==>
                     Usable(s, key, now) && !IsAttempt(en, key, s.pending[Hex(key)].endpoint)))
  {
    HexKeysAreFaithful();
    hide Hex;
    hide PeerTable.Expired;
    hide PeerTable.Lookup;
    hide ToText;
  }

  lemma StandsSnoc(cfg: Config, trace: seq<Entry>, n: nat, key: Bytes, now: int)
    requires 0 < n <= |trace| && !IsHello(trace[n - 1], key)
    ensures var i := LastHello(trace, n - 1, key);
            Stands(cfg, trace, n, key, now) <==>
              Stands(cfg, trace, n - 1, key, now) && !IsAttempt(trace[n - 1], key, trace[i.value].reply.value.to)
  {
    hide IsAttempt;
    assert LastHello(trace, n, key) == LastHello(trace, n - 1, key);
  }

  lemma {:induction false} UsableStands(c: Suite, cfg: Config, trace: seq<Entry>, n: nat, key: Bytes, now: int)
    requires IsTrace(c, cfg, trace) && n <= |trace| && |key| == PUBLIC_KEY_BYTES
    requires forall i :: 0 <= i < n ==> trace[i].x.now <= now
    ensures Usable(At(trace, n), key, now) <==> Stands(cfg, trace, n, key, now)
  {
    hide Step;
    hide Hex;
    hide IsAttempt;
    if n > 0 {
      assert IsStep(c, cfg, trace, n - 1);
      var en := trace[n - 1];
      assert en == Entry(en.pre, en.x, en.post, en.reply);
      StepOnUsable(c, cfg, en.pre, en.x, key, now);
      if IsHello(en, key) {
        assert LastHello(trace, n, key) == Some(n - 1);
      } else {
        UsableStands(c, cfg, trace, n - 1, key, now);
        StandsSnoc(cfg, trace, n, key, now);
        hide Stands;
        if Usable(en.pre, key, now) { PendingIsLastHello(c, cfg, trace, n - 1, key); }
      }
    }
  }

  /** Registration, both ways.  On a monotone clock the reply to a REGISTER is a matter
      of the trace alone: a request gets its challenge; a signature is acknowledged
      exactly when it is the first attempt, from the challenged endpoint and in time, at
      the last challenge sent for the key, and verifies; anything else gets silence. */
  lemma RegisterIsAnswered(c: Suite, cfg: Config, trace: seq<Entry>, j: nat)
    requires IsTrace(c, cfg, trace) && j < |trace| && ClockIsMonotone(trace) && IsRegister(trace[j].x)
    ensures var Packeted(p, from, now, challenge) := trace[j].x;
            var i := LastHello(trace, j, p.source);
            trace[j].reply ==
              if |p.source| != 32 then None
              else if p.payload == [] then Some(Outgoing(from, Plain(HELLO, [], [], challenge)))
              else if |p.payload| == 64 && Stands(cfg, trace, j, p.source, now) && trace[i.value].reply.value.to == from
                      && c.verify(p.payload, trace[i.value].reply.value.packet.payload, p.source)
                   then Some(Outgoing(from, Plain(ACK, [], [], ToText(from))))
              else None
  {
    var p := trace[j].x.packet;
    hide Hex;
    hide ToText;
    assert IsStep(c, cfg, trace, j);
    if |p.source| == 32 {
      UsableStands(c, cfg, trace, j, p.source, trace[j].x.now);
      if Usable(trace[j].pre, p.source, trace[j].x.now) { PendingIsLastHello(c, cfg, trace, j, p.source); }
    }
  }

  // ---- traces of run_once ---------------------------------------------------

  /** One call of run_once and what the world gives it. */
  datatype Round = Round(datagram: Option<(Bytes, Endpoint)>, now: int, challenge: Bytes)

  function ServerAfter(c: Suite, cfg: Config, rounds: seq<Round>): Server
  {
    if rounds == [] then EMPTY else
      var r := rounds[|rounds| - 1];
      RunOnce(c, cfg, ServerAfter(c, cfg, rounds[..|rounds| - 1]), r.datagram, r.now, r.challenge).0
  }

  function Extend(c: Suite, cfg: Config, trace: seq<Entry>, x: Input): seq<Entry>
  {
    var s := At(trace, |trace|);
    var (t, reply) := Step(c, cfg, s, x);
    trace + [Entry(s, x, t, reply)]
  }

  /** A round is the packet, if a datagram came and parses, and a sweep. */
  function ExtendRound(c: Suite, cfg: Config, trace: seq<Entry>, r: Round): seq<Entry>
  {
    var handled := if r.datagram.None? then trace else
                     match Parse(r.datagram.value.0)
                     case Err(_) => trace
                     case Ok(p) => Extend(c, cfg, trace, Packeted(p, r.datagram.value.1, r.now, r.challenge));
    Extend(c, cfg, handled, Swept(r.now))
  }

  /** The trace of the server's steps over some rounds. */
  function TraceOf(c: Suite, cfg: Config, rounds: seq<Round>): seq<Entry>
  {
    if rounds == [] then [] else
      ExtendRound(c, cfg, TraceOf(c, cfg, rounds[..|rounds| - 1]), rounds[|rounds| - 1])
  }

  lemma ExtendIsTrace(c: Suite, cfg: Config, trace: seq<Entry>, x: Input)
    requires IsTrace(c, cfg, trace)
    ensures var t := Extend(c, cfg, trace, x);
            IsTrace(c, cfg, t) && |t| == |trace| + 1 && t[..|trace|] == trace &&
            At(t, |t|) == Step(c, cfg, At(trace, |trace|), x).0
  {
    hide Step;
    var t := Extend(c, cfg, trace, x);
    forall i | 0 <= i < |t|
      ensures IsStep(c, cfg, t, i)
    {
      if i < |trace| { assert IsStep(c, cfg, trace, i); }
    }
  }

  /** A round takes exactly its steps: it leaves the server they leave, and what it
      puts on the wire is the packet's reply, serialized. */
  lemma RoundTakesItsSteps(c: Suite, cfg: Config, trace: seq<Entry>, r: Round)
    requires IsTrace(c, cfg, trace)
    ensures var t := ExtendRound(c, cfg, trace, r);
            var (s, sent) := RunOnce(c, cfg, At(trace, |trace|), r.datagram, r.now, r.challenge);
            var reply := t[|trace|].reply;
            && IsTrace(c, cfg, t) && |trace| < |t| && t[..|trace|] == trace && t[|t| - 1].x == Swept(r.now)
            && (forall i :: |trace| <= i < |t| ==> t[i].x.now == r.now)
            && At(t, |t|) == s
            && sent == if reply.Some? then Some((reply.value.to, Serialize(reply.value.packet))) else None
  {
    hide Handle;
    hide Sweep;
    hide Parse;
    hide Serialize;
    var handled := trace;
    if r.datagram.Some? && Parse(r.datagram.value.0).Ok? {
      var x := Packeted(Parse(r.datagram.value.0).packet, r.datagram.value.1, r.now, r.challenge);
      ExtendIsTrace(c, cfg, trace, x);
      handled := Extend(c, cfg, trace, x);
    }
    ExtendIsTrace(c, cfg, handled, Swept(r.now));
  }

  predicate RoundsAscend(rounds: seq<Round>)
  {
    forall i, j :: 0 <= i < j < |rounds| ==> rounds[i].now <= rounds[j].now
  }

  /** Every server that ever ran is at the end of a trace, swept at its last round's
      time and on its clock: the theorems over traces are about run_once. */
  lemma {:induction false} RoundsAreATrace(c: Suite, cfg: Config, rounds: seq<Round>)
    ensures var t := TraceOf(c, cfg, rounds);
            && IsTrace(c, cfg, t) && At(t, |t|) == ServerAfter(c, cfg, rounds)
            && (rounds != [] ==> t != [] && t[|t| - 1].x == Swept(rounds[|rounds| - 1].now))
            && (RoundsAscend(rounds) ==> ClockIsMonotone(t))
            && (RoundsAscend(rounds) && rounds != [] ==>
                  forall i :: 0 <= i < |t| ==> t[i].x.now <= rounds[|rounds| - 1].now)
  {
    hide Step;
    hide ExtendRound;
    hide RunOnce;
    if rounds != [] {
      var front, r := rounds[..|rounds| - 1], rounds[|rounds| - 1];
      RoundsAreATrace(c, cfg, front);
      var before, t := TraceOf(c, cfg, front), TraceOf(c, cfg, rounds);
      RoundTakesItsSteps(c, cfg, before, r);
      if RoundsAscend(rounds) {
        assert RoundsAscend(front);
        if front != [] { assert rounds[|front| - 1].now <= r.now; }
        assert forall i :: 0 <= i < |before| ==> t[i] == before[i];
      }
    }
  }

  /** After each run_once, on a clock that does not go back, every entry was seen in
      [now - ttl, now] and a lookup is what reading the log backwards gives. */
  lemma RegistryAfterRunOnce(c: Suite, cfg: Config, rounds: seq<Round>, key: Bytes)
    requires rounds != [] && RoundsAscend(rounds)
    ensures var s, now := ServerAfter(c, cfg, rounds), rounds[|rounds| - 1].now;
            var log := LogOf(TraceOf(c, cfg, rounds));
            var online := PeerTable.Online(cfg.peerTtl, log, |log|, Hex(key));
            && PeerTable.Lookup(s.registry, Hex(key)) == (if online.Some? then Some(online.value.endpoint) else None)
            && (Hex(key) in s.registry ==> now - cfg.peerTtl <= s.registry[Hex(key)].lastSeen <= now)
  {
    hide Step;
    hide TraceOf;
    hide ServerAfter;
    hide PeerTable.Online;
    hide IsTrace;
    hide ClockIsMonotone;
    hide LogOf;
    hide Hex;
    RoundsAreATrace(c, cfg, rounds);
    var t := TraceOf(c, cfg, rounds);
    RegistryAgreesWithLog(c, cfg, t, |t|, key);
    if Hex(key) in ServerAfter(c, cfg, rounds).registry { RegistryIsRecent(c, cfg, t, |t|, Hex(key)); }
  }

  // ---- sweeps do not matter to registration ---------------------------------

  predicate IsRegister(x: Input) { x.Packeted? && x.packet.kind == REGISTER }

  /** xs is ys with extra sweeps put in. */
  predicate AddsSweeps(xs: seq<Input>, ys: seq<Input>)
  {
    if xs == [] then ys == []
    else (ys != [] && xs[0] == ys[0] && AddsSweeps(xs[1..], ys[1..])) ||
         (xs[0].Swept? && AddsSweeps(xs[1..], ys))
  }

  /** The replies to REGISTER packets, in order, silence included. */
  function RegisterReplies(c: Suite, cfg: Config, s: Server, xs: seq<Input>): seq<Option<Outgoing>>
    decreases |xs|
  {
    if xs == [] then [] else
      var (t, reply) := Step(c, cfg, s, xs[0]);
      (if IsRegister(xs[0]) then [reply] else []) + RegisterReplies(c, cfg, t, xs[1..])
  }

  predicate Ascending(xs: seq<Input>)
  {
    forall i, j :: 0 <= i < j < |xs| ==> xs[i].now <= xs[j].now
  }

  /** s has all of t's pending challenges but some that expired before now. */
  ghost predicate OnlyExpiredMissing(s: Server, t: Server, now: int)
  {
    && (forall key :: key in s.pending ==> key in t.pending && t.pending[key] == s.pending[key])
    && (forall key :: key in t.pending && key !in s.pending ==> t.pending[key].expiry < now)
  }

  lemma SameRegisterReply(c: Suite, cfg: Config, s: Server, t: Server, p: Packet, from: Endpoint, now: int,
                          challenge: Bytes)
    requires OnlyExpiredMissing(s, t, now)
    ensures var (s1, a) := HandleRegister(c, cfg, s, p, from, now, challenge);
            var (t1, b) := HandleRegister(c, cfg, t, p, from, now, challenge);
            a == b && OnlyExpiredMissing(s1, t1, now)
  {
    hide Hex;
    hide ToText;
  }

  lemma SameReply(c: Suite, cfg: Config, s: Server, t: Server, x: Input)
    requires OnlyExpiredMissing(s, t, x.now)
    ensures var (s1, a) := Step(c, cfg, s, x);
            var (t1, b) := Step(c, cfg, t, x);
            (IsRegister(x) ==> a == b) && OnlyExpiredMissing(s1, t1, x.now)
  {
    hide HandleRegister;
    hide HandleDiscover;
    hide HandleConnect;
    hide Hex;
    hide PeerTable.Expired;
    if IsRegister(x) { SameRegisterReply(c, cfg, s, t, x.packet, x.from, x.now, x.challenge); }
  }

  lemma ExtraSweep(c: Suite, cfg: Config, s: Server, t: Server, x: Input)
    requires OnlyExpiredMissing(s, t, x.now) && x.Swept?
    ensures OnlyExpiredMissing(Step(c, cfg, s, x).0, t, x.now)
  {
    hide PeerTable.Expired;
  }

  lemma Later(s: Server, t: Server, now: int, later: int)
    requires OnlyExpiredMissing(s, t, now) && now <= later
    ensures OnlyExpiredMissing(s, t, later)
  {
  }

  /** Sweeping more often never changes a reply to REGISTER: an expired challenge is
      as good as none. */
  lemma {:induction false} SweepsDoNotMatter(c: Suite, cfg: Config, s: Server, t: Server, xs: seq<Input>,
                                             ys: seq<Input>)
    requires AddsSweeps(xs, ys) && Ascending(xs)
    requires xs != [] ==> OnlyExpiredMissing(s, t, xs[0].now)
    ensures RegisterReplies(c, cfg, s, xs) == RegisterReplies(c, cfg, t, ys)
    decreases |xs|
  {
    hide Step;
    hide OnlyExpiredMissing;
    if xs != [] {
      var x := xs[0];
      var s1 := Step(c, cfg, s, x).0;
      if ys != [] && x == ys[0] && AddsSweeps(xs[1..], ys[1..]) {
        SameReply(c, cfg, s, t, x);
        var t1 := Step(c, cfg, t, x).0;
        if xs[1..] != [] { Later(s1, t1, x.now, xs[1].now); }
        SweepsDoNotMatter(c, cfg, s1, t1, xs[1..], ys[1..]);
      } else {
        ExtraSweep(c, cfg, s, t, x);
        if xs[1..] != [] { Later(s1, t, x.now, xs[1].now); }
        SweepsDoNotMatter(c, cfg, s1, t, xs[1..], ys);
        assert [] + RegisterReplies(c, cfg, s1, xs[1..]) == RegisterReplies(c, cfg, s1, xs[1..]);
      }
    }
  }

  // ---- discovery and forwarding ---------------------------------------------

  /** What a client reads from a DISCOVER reply is the registered endpoint, or
      nothing when the peer is not registered. */
  lemma DiscoveryDecodes(c: Suite, cfg: Config, s: Server, p: Packet, from: Endpoint, now: int, challenge: Bytes)
    requires p.kind == DISCOVER && p.destination != []
    ensures var reply := Handle(c, cfg, s, p, from, now, challenge).1;
            && reply.Some? && reply.value.to == from && reply.value.packet.kind == CONNECT
            && ParseEndpoint(reply.value.packet.payload) == PeerTable.Lookup(s.registry, Hex(p.destination))
  {
    match PeerTable.Lookup(s.registry, Hex(p.destination))
    case None =>
    case Some(endpoint) => EndpointRoundTrip(endpoint);
  }

  /** The other replies, from the log.  A query is answered with the queried key and the
      endpoint the log gives it, or none; a CONNECT goes to the endpoint the log gives its
      destination, if any; every heartbeat is answered; nothing else is. */
  lemma OthersAreAnswered(c: Suite, cfg: Config, trace: seq<Entry>, j: nat)
    requires IsTrace(c, cfg, trace) && j < |trace| && ClockIsMonotone(trace)
    requires trace[j].x.Packeted? && trace[j].x.packet.kind != REGISTER
    ensures var p, from := trace[j].x.packet, trace[j].x.from;
            var online := PeerTable.Online(cfg.peerTtl, LogOf(trace), j, Hex(p.destination));
            trace[j].reply ==
              if p.kind == HEARTBEAT then Some(Outgoing(from, Packet(1, 9, 0, 0, [], [], [])))
              else if p.destination == [] then None
              else if p.kind == DISCOVER then
                Some(Outgoing(from, Plain(CONNECT, p.destination, [],
                                          if online.Some? then ToText(online.value.endpoint) else [])))
              else if p.kind == CONNECT && online.Some? then Some(Outgoing(online.value.endpoint, p))
              else None
  {
    hide Hex;
    hide ToText;
    hide PeerTable.Online;
    hide LogOf;
    assert IsStep(c, cfg, trace, j);
    RegistryAgreesWithLog(c, cfg, trace, j, trace[j].x.packet.destination);
  }

  /** After a sweep no challenge is kept past its time. */
  lemma ChallengesAreSwept(c: Suite, cfg: Config, trace: seq<Entry>, n: nat, key: string)
    requires IsTrace(c, cfg, trace) && 0 < n <= |trace| && trace[n - 1].x.Swept? && key in At(trace, n).pending
    ensures trace[n - 1].x.now <= At(trace, n).pending[key].expiry
  {
    hide PeerTable.Expired;
    assert IsStep(c, cfg, trace, n - 1);
  }

  /** A forwarded CONNECT leaves the server byte for byte as it came, for the
      destination's registered endpoint. */
  lemma ForwardingIsVerbatim(c: Suite, cfg: Config, s: Server, data: Bytes, from: Endpoint, now: int, challenge: Bytes)
    requires Parse(data).Ok? && Parse(data).packet.kind == CONNECT && Parse(data).packet.destination != []
    ensures var key := Hex(Parse(data).packet.destination);
            RunOnce(c, cfg, s, Some((data, from)), now, challenge).1 ==
              match PeerTable.Lookup(s.registry, key)
              case None => None
              case Some(endpoint) => Some((endpoint, data))
  {
    SerializeOfParse(data);
    hide Parse;
    hide Serialize;
    hide Sweep;
    hide Hex;
  }
}
