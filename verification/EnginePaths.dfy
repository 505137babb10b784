/** Hole punching over whole runs: how many probes are sent, how far apart, and
    where a confirmed path leads. */
module EnginePaths {
  import opened Octets
  import opened HexKeys
  import opened Wire
  import opened EndpointText
  import opened Crypto
  import opened EngineModel
  import opened EngineSessions
  import Sessions
  import Storage

  predicate PolledKind(x: Input, kind: byte) { Polled(x).Some? && Polled(x).value.kind == kind }

  /** A probe sent by start_probing, which was not short-circuited. */
  predicate IsStart(en: Entry, key: string)
  {
    key in en.out.probes && (en.x.Connect? || PolledKind(en.x, CONNECT))
  }

  predicate IsReprobe(en: Entry, key: string) { key in en.out.probes && en.x.Tick? }

  /** Probes sent on our own initiative, by start_probing or tick. */
  predicate IsPaced(en: Entry, key: string) { IsStart(en, key) || IsReprobe(en, key) }

  function ClockOf(x: Input): int
  {
    match x
    case Connect(_, _, clock) => clock
    case Tick(clock) => clock
    case Poll(_, _, clock) => clock
    case _ => 0
  }

  /** How a step treats the probe of one peer: it starts afresh, is repeated, is
      confirmed and answered, or stays as it was. */
  ghost predicate ProbeTreated(e: Engine, x: Input, o: Out, key: string)
  {
    var en := Entry(e, x, o);
    if IsStart(en, key) then
      && !Confirmed(e, key) && key in o.st.probes && !o.st.probes[key].confirmed
      && o.st.probes[key].attempts == 1 && o.st.probes[key].last == ClockOf(x)
    else if IsReprobe(en, key) then
      && key in e.probes && Due(e.probes[key], ClockOf(x))
      && key in o.st.probes && o.st.probes[key] == Reprobed(e.probes[key], ClockOf(x))
    else if key in o.probes then
      !Confirmed(e, key) && Confirmed(o.st, key)
    else
      && (key in e.probes <==> key in o.st.probes) && (Confirmed(e, key) <==> Confirmed(o.st, key))
      && (key in e.probes ==> o.st.probes[key].attempts == e.probes[key].attempts)
      && (key in e.probes ==> o.st.probes[key].last == e.probes[key].last)
  }

  lemma SendingLeavesPaths(c: Suite, e: Engine, x: Input)
    requires x.AddPeer? || x.SendContactRequest? || x.AcceptContact? || x.RejectContact? || x.Send?
    ensures var o := EngineModel.Step(c, e, x); o.probes == map[] && o.st.probes == e.probes
    ensures var o := EngineModel.Step(c, e, x);
            forall key :: key in e.endpoints && (x.AddPeer? || x.SendContactRequest? ==> key != Hex(x.peer)) ==>
              key in o.st.endpoints && o.st.endpoints[key] == e.endpoints[key]
    ensures e.endpoints.Keys <= EngineModel.Step(c, e, x).st.endpoints.Keys
  {
    hide EnsureSession;
    hide SealAndSend;
    hide SetTrust;
    hide Storage.Without;
    hide Storage.TrustOf;
    hide Hex;
  }

  lemma DispatchLeavesPaths(e: Engine, p: Packet, text: Bytes, now: i64)
    ensures var o := Dispatch(e, p, text, now);
            o.st.self == e.self && o.probes == map[] && o.st.probes == e.probes && o.st.endpoints == e.endpoints
  {
    hide SetTrust;
    hide Rename;
    hide Storage.Apply;
    hide Storage.TrustOf;
    hide Hex;
  }

  lemma ReceivingLeavesPaths(c: Suite, e: Engine, p: Packet, from: Endpoint, now: i64)
    ensures var o := Receive(c, e, p, from, now);
            && o.probes == map[] && o.st.probes == e.probes && e.endpoints.Keys <= o.st.endpoints.Keys
            && o.st.self == e.self
            && forall key :: key in e.endpoints && Confirmed(e, key) ==> o.st.endpoints[key] == e.endpoints[key]
  {
    hide Admit;
    hide Dispatch;
    hide Hex;
    var (e1, text) := Admit(c, e, p);
    if text.Some? { DispatchLeavesPaths(TrackAddress(e1, p.source, from), p, text.value, now); }
  }

  lemma TickTreatsProbe(e: Engine, clock: int, key: string)
    ensures ProbeTreated(e, Tick(clock), DoTick(e, clock), key)
  {
  }

  lemma ConnectTreatsProbe(e: Engine, peer: Bytes, to: Endpoint, clock: int, key: string)
    ensures ProbeTreated(e, Connect(peer, to, clock), DoConnect(e, peer, to, clock), key)
  {
    hide Hex;
  }

  lemma HelloTreatsProbe(e: Engine, x: Input, key: string)
    requires PolledKind(x, HELLO)
    ensures ProbeTreated(e, x, HandleProbe(e, Polled(x).value.source, x.datagram.value.from), key)
  {
    hide Parse;
    hide Hex;
  }

  lemma AdvertTreatsProbe(e: Engine, x: Input, key: string)
    requires PolledKind(x, CONNECT)
    ensures ProbeTreated(e, x, HandleConnect(e, Polled(x).value.source, Polled(x).value.payload, x.clock), key)
  {
    hide Parse;
    hide ParseEndpoint;
    hide Hex;
  }

  lemma QuietTreatsProbe(e: Engine, x: Input, o: Out, key: string)
    requires o.probes == map[] && o.st.probes == e.probes
    ensures ProbeTreated(e, x, o, key)
  {
  }

  lemma StepTreatsProbe(c: Suite, e: Engine, x: Input, key: string)
    requires !x.Restart?
    ensures ProbeTreated(e, x, EngineModel.Step(c, e, x), key)
  {
    hide ProbeTreated;
    hide Parse;
    hide DoAddPeer;
    hide DoSendContactRequest;
    hide DoAnswer;
    hide DoSend;
    hide DoConnect;
    hide DoTick;
    hide HandleProbe;
    hide HandleConnect;
    hide Receive;
    hide Rename;
    hide Hex;
    match x
    case Tick(clock) => TickTreatsProbe(e, clock, key);
    case Connect(peer, to, clock) => ConnectTreatsProbe(e, peer, to, clock, key);
    case Poll(_, now, clock) =>
      if PolledKind(x, HELLO) { HelloTreatsProbe(e, x, key); }
      if PolledKind(x, CONNECT) { AdvertTreatsProbe(e, x, key); }
      if Polled(x).Some? { ReceivingLeavesPaths(c, e, Polled(x).value, x.datagram.value.from, now); }
      if EngineModel.Step(c, e, x).probes == map[] && EngineModel.Step(c, e, x).st.probes == e.probes {
        QuietTreatsProbe(e, x, EngineModel.Step(c, e, x), key);
      }
    case _ =>
      if !x.SetNickname? && !x.SetRelay? { SendingLeavesPaths(c, e, x); }
      QuietTreatsProbe(e, x, EngineModel.Step(c, e, x), key);
  }

  ghost predicate NoRestart(run: seq<Entry>)
  {
    forall i :: 0 <= i < |run| ==> !run[i].x.Restart?
  }

  // ---- probe budget ---------------------------------------------------------

  function CountProbes(run: seq<Entry>, n: nat, key: string): nat
    requires n <= |run|
  {
    if n == 0 then 0 else CountProbes(run, n - 1, key) + if key in run[n - 1].out.probes then 1 else 0
  }

  function CountStarts(run: seq<Entry>, n: nat, key: string): nat
    requires n <= |run|
  {
    if n == 0 then 0 else CountStarts(run, n - 1, key) + if IsStart(run[n - 1], key) then 1 else 0
  }

  /** The budget with what is left of it in each state of the probe. */
  ghost predicate WithinBudget(e: Engine, key: string, sent: nat, starts: nat)
  {
    if key !in e.probes then sent == 0
    else if e.probes[key].confirmed then sent <= MAX_PROBES * starts + 1
    else starts >= 1 && 1 <= e.probes[key].attempts <= MAX_PROBES
         && sent <= MAX_PROBES * (starts - 1) + e.probes[key].attempts
  }

  lemma {:induction false} BudgetHolds(c: Suite, first: Engine, run: seq<Entry>, n: nat, key: string)
    requires IsRun(c, first, run) && NoRestart(run) && n <= |run| && first.probes == map[]
    ensures WithinBudget(At(first, run, n), key, CountProbes(run, n, key), CountStarts(run, n, key))
  {
    hide EngineModel.Step;
    hide Polled;
    if n > 0 {
      BudgetHolds(c, first, run, n - 1, key);
      assert IsStep(c, first, run, n - 1);
      StepTreatsProbe(c, run[n - 1].pre, run[n - 1].x, key);
      assert run[n - 1] == Entry(run[n - 1].pre, run[n - 1].x, run[n - 1].out);
    }
  }

  /** A peer is sent at most twelve probes per start_probing that went ahead, and
      one more, the answer to its own first probe. */
  lemma ProbeBudget(c: Suite, first: Engine, run: seq<Entry>, n: nat, peer: Bytes)
    requires IsRun(c, first, run) && NoRestart(run) && n <= |run| && first.probes == map[]
    ensures CountProbes(run, n, Hex(peer)) <= 12 * CountStarts(run, n, Hex(peer)) + 1
  {
    BudgetHolds(c, first, run, n, Hex(peer));
  }

  // ---- pacing ---------------------------------------------------------------

  predicate HasClock(x: Input) { x.Connect? || x.Tick? || x.Poll? }

  ghost predicate ClockIsMonotone(run: seq<Entry>)
  {
    forall i, j :: 0 <= i < j < |run| && HasClock(run[i].x) && HasClock(run[j].x) ==>
      ClockOf(run[i].x) <= ClockOf(run[j].x)
  }

  lemma {:induction false} LastIsLatest(c: Suite, first: Engine, run: seq<Entry>, n: nat, key: string, i: nat)
    requires IsRun(c, first, run) && NoRestart(run) && ClockIsMonotone(run)
    requires i < n <= |run| && IsPaced(run[i], key)
    ensures var e := At(first, run, n);
            key in e.probes && (e.probes[key].confirmed || ClockOf(run[i].x) <= e.probes[key].last)
  {
    hide EngineModel.Step;
    hide Parse;
    assert IsStep(c, first, run, n - 1);
    StepTreatsProbe(c, run[n - 1].pre, run[n - 1].x, key);
    assert run[n - 1] == Entry(run[n - 1].pre, run[n - 1].x, run[n - 1].out);
    if i < n - 1 { LastIsLatest(c, first, run, n - 1, key, i); }
  }

  /** On a monotone clock, tick repeats a probe to a peer no sooner than 250 ms
      after every earlier probe that start_probing or tick sent it. */
  lemma ProbesArePaced(c: Suite, first: Engine, run: seq<Entry>, i: nat, j: nat, peer: Bytes)
    requires IsRun(c, first, run) && NoRestart(run) && ClockIsMonotone(run)
    requires i < j < |run| && IsPaced(run[i], Hex(peer)) && IsReprobe(run[j], Hex(peer))
    ensures ClockOf(run[j].x) - ClockOf(run[i].x) >= 250
  {
    hide EngineModel.Step;
    hide Parse;
    LastIsLatest(c, first, run, j, Hex(peer), i);
    assert IsStep(c, first, run, j);
    StepTreatsProbe(c, run[j].pre, run[j].x, Hex(peer));
    assert run[j] == Entry(run[j].pre, run[j].x, run[j].out);
  }

  // ---- path stability -------------------------------------------------------

  /** A hole-punch probe from the peer, addressed to us. */
  predicate IsProbeFrom(en: Entry, peer: Bytes)
  {
    && PolledKind(en.x, HELLO) && peer != []
    && Polled(en.x).value.source == peer && Polled(en.x).value.destination == en.pre.self
  }

  /** The caller gives the peer a new endpoint. */
  predicate Reassigns(x: Input, peer: Bytes)
  {
    (x.Connect? || x.AddPeer? || x.SendContactRequest?) && x.peer == peer
  }

  /** What one step does to a peer's path. */
  ghost predicate PathTreated(e: Engine, x: Input, o: Out, peer: Bytes)
  {
    var key := Hex(peer);
    && o.st.self == e.self
    && (Confirmed(e, key) ==> Confirmed(o.st, key))
    && (Confirmed(o.st, key) ==> key in o.st.endpoints)
    && (if IsProbeFrom(Entry(e, x, o), peer)
        then Confirmed(o.st, key) && o.st.endpoints[key] == x.datagram.value.from
        else Confirmed(o.st, key) ==>
               && Confirmed(e, key) && key in e.endpoints
               && (!Reassigns(x, peer) ==> o.st.endpoints[key] == e.endpoints[key]))
  }

  lemma QuietTreatsPath(e: Engine, x: Input, o: Out, peer: Bytes)
    requires Confirmed(e, Hex(peer)) ==> Hex(peer) in e.endpoints
    requires o.st.self == e.self && o.st.probes == e.probes && !PolledKind(x, HELLO)
    requires e.endpoints.Keys <= o.st.endpoints.Keys
    requires Confirmed(e, Hex(peer)) && !Reassigns(x, peer) ==> o.st.endpoints[Hex(peer)] == e.endpoints[Hex(peer)]
    ensures PathTreated(e, x, o, peer)
  {
  }

  lemma SendingTreatsPath(c: Suite, e: Engine, x: Input, peer: Bytes)
    requires x.AddPeer? || x.SendContactRequest? || x.AcceptContact? || x.RejectContact? || x.Send?
    requires Confirmed(e, Hex(peer)) ==> Hex(peer) in e.endpoints
    ensures PathTreated(e, x, EngineModel.Step(c, e, x), peer)
  {
    hide EngineModel.Step;
    hide UseOf;
    HexKeysAreFaithful();
    hide Hex;
    StepUsesSession(c, e, x, peer);
    SendingLeavesPaths(c, e, x);
    QuietTreatsPath(e, x, EngineModel.Step(c, e, x), peer);
  }

  lemma ConnectTreatsPath(e: Engine, x: Input, peer: Bytes)
    requires x.Connect? && (Confirmed(e, Hex(peer)) ==> Hex(peer) in e.endpoints)
    ensures PathTreated(e, x, DoConnect(e, x.peer, x.endpoint, x.clock), peer)
  {
    HexKeysAreFaithful();
    hide Hex;
  }

  lemma HelloTreatsPath(e: Engine, x: Input, peer: Bytes)
    requires PolledKind(x, HELLO) && (Confirmed(e, Hex(peer)) ==> Hex(peer) in e.endpoints)
    requires Polled(x).value.destination == e.self && Polled(x).value.source != []
    ensures PathTreated(e, x, HandleProbe(e, Polled(x).value.source, x.datagram.value.from), peer)
  {
    HexKeysAreFaithful();
    hide Hex;
    hide Parse;
  }

  lemma AdvertTreatsPath(e: Engine, x: Input, peer: Bytes)
    requires PolledKind(x, CONNECT) && (Confirmed(e, Hex(peer)) ==> Hex(peer) in e.endpoints)
    ensures PathTreated(e, x, HandleConnect(e, Polled(x).value.source, Polled(x).value.payload, x.clock), peer)
  {
    HexKeysAreFaithful();
    hide Hex;
    hide Parse;
    hide ParseEndpoint;
  }

  lemma TickTreatsPath(e: Engine, x: Input, peer: Bytes)
    requires x.Tick? && (Confirmed(e, Hex(peer)) ==> Hex(peer) in e.endpoints)
    ensures PathTreated(e, x, DoTick(e, x.clock), peer)
  {
    hide Hex;
  }

  lemma StepTreatsPath(c: Suite, e: Engine, x: Input, peer: Bytes)
    requires !x.Restart? && (Confirmed(e, Hex(peer)) ==> Hex(peer) in e.endpoints)
    ensures PathTreated(e, x, EngineModel.Step(c, e, x), peer)
  {
    hide PathTreated;
    hide Parse;
    hide DoAddPeer;
    hide DoSendContactRequest;
    hide DoAnswer;
    hide DoSend;
    hide DoConnect;
    hide DoTick;
    hide HandleProbe;
    hide HandleConnect;
    hide Receive;
    hide Rename;
    hide Hex;
    match x
    case Tick(_) => TickTreatsPath(e, x, peer);
    case Connect(_, _, _) => ConnectTreatsPath(e, x, peer);
    case SetNickname(_, _) => QuietTreatsPath(e, x, EngineModel.Step(c, e, x), peer);
    case SetRelay(_) => QuietTreatsPath(e, x, EngineModel.Step(c, e, x), peer);
    case Poll(_, _, _) => PollTreatsPath(c, e, x, peer);
    case _ => SendingTreatsPath(c, e, x, peer);
  }

  lemma PollTreatsPath(c: Suite, e: Engine, x: Input, peer: Bytes)
    requires x.Poll? && (Confirmed(e, Hex(peer)) ==> Hex(peer) in e.endpoints)
    ensures PathTreated(e, x, EngineModel.Step(c, e, x), peer)
  {
    hide Parse;
    hide HandleProbe;
    hide HandleConnect;
    hide Receive;
    hide Hex;
    if PolledKind(x, HELLO) {
      if Polled(x).value.destination == e.self && Polled(x).value.source != [] { HelloTreatsPath(e, x, peer); }
    } else if PolledKind(x, CONNECT) {
      AdvertTreatsPath(e, x, peer);
    } else if Polled(x).Some? {
      ReceivingLeavesPaths(c, e, Polled(x).value, x.datagram.value.from, x.now);
      QuietTreatsPath(e, x, EngineModel.Step(c, e, x), peer);
    }
  }

  /** A confirmed direct path stays confirmed and always has a known endpoint. */
  lemma {:induction false} ConfirmedForever(c: Suite, first: Engine, run: seq<Entry>, i: nat, j: nat, peer: Bytes)
    requires IsRun(c, first, run) && NoRestart(run) && i <= j <= |run|
    requires Confirmed(first, Hex(peer)) ==> Hex(peer) in first.endpoints
    ensures Confirmed(At(first, run, i), Hex(peer)) ==> Confirmed(At(first, run, j), Hex(peer))
    ensures Confirmed(At(first, run, j), Hex(peer)) ==> Hex(peer) in At(first, run, j).endpoints
  {
    hide EngineModel.Step;
    hide Hex;
    if j > 0 {
      ConfirmedForever(c, first, run, if i < j then i else i - 1, j - 1, peer);
      assert IsStep(c, first, run, j - 1);
      StepTreatsPath(c, run[j - 1].pre, run[j - 1].x, peer);
    }
  }

  /** The source of the last probe from the peer among steps i .. j. */
  function LatestProbe(run: seq<Entry>, i: nat, j: nat, peer: Bytes): Option<Endpoint>
    requires i <= j <= |run|
  {
    if i == j then None
    else if IsProbeFrom(run[j - 1], peer) then Some(run[j - 1].x.datagram.value.from)
    else LatestProbe(run, i, j - 1, peer)
  }

  /** While the caller does not reassign a peer's endpoint, a confirmed path leads
      to where the peer's latest probe came from, whatever else arrives. */
  lemma {:induction false} PathFollowsProbes(c: Suite, first: Engine, run: seq<Entry>, i: nat, j: nat, peer: Bytes)
    requires IsRun(c, first, run) && NoRestart(run) && i <= j <= |run|
    requires Confirmed(first, Hex(peer)) ==> Hex(peer) in first.endpoints
    requires forall k :: i <= k < j ==> !Reassigns(run[k].x, peer)
    requires Confirmed(At(first, run, j), Hex(peer))
    ensures var key := Hex(peer);
            && key in At(first, run, j).endpoints
            && match LatestProbe(run, i, j, peer)
               case Some(from) => At(first, run, j).endpoints[key] == from
               case None => Confirmed(At(first, run, i), key) && key in At(first, run, i).endpoints &&
                            At(first, run, j).endpoints[key] == At(first, run, i).endpoints[key]
  {
    hide EngineModel.Step;
    hide Polled;
    hide Hex;
    ConfirmedForever(c, first, run, j, j, peer);
    if i < j {
      ConfirmedForever(c, first, run, j - 1, j - 1, peer);
      assert IsStep(c, first, run, j - 1);
      StepTreatsPath(c, run[j - 1].pre, run[j - 1].x, peer);
      assert run[j - 1] == Entry(run[j - 1].pre, run[j - 1].x, run[j - 1].out);
      if !IsProbeFrom(run[j - 1], peer) { PathFollowsProbes(c, first, run, i, j - 1, peer); }
    }
  }

  /** So what is sent to a peer with a confirmed path goes straight there: to the
      source of its latest probe, and never to the relay instead. */
  lemma TrafficFollowsProbes(c: Suite, first: Engine, run: seq<Entry>, i: nat, j: nat, peer: Bytes)
    requires IsRun(c, first, run) && NoRestart(run) && i <= j < |run|
    requires Confirmed(first, Hex(peer)) ==> Hex(peer) in first.endpoints
    requires forall k :: i <= k <= j ==> !Reassigns(run[k].x, peer)
    requires Confirmed(At(first, run, j), Hex(peer)) && LatestProbe(run, i, j, peer).Some?
    requires run[j].out.packet.Some? && IsSending(run[j].x) && run[j].x.peer == peer
    ensures Some(run[j].out.packet.value.to) == LatestProbe(run, i, j, peer)
  {
    PathFollowsProbes(c, first, run, i, j, peer);
    assert IsStep(c, first, run, j);
    SentToKnownEndpoint(c, run[j].pre, run[j].x);
  }

  lemma SentToKnownEndpoint(c: Suite, e: Engine, x: Input)
    requires IsSending(x) && !x.SendContactRequest? && Hex(x.peer) in e.endpoints
    ensures var o := EngineModel.Step(c, e, x); o.packet.Some? ==> o.packet.value.to == e.endpoints[Hex(x.peer)]
  {
    hide EnsureSession;
    hide SetTrust;
    hide Storage.Without;
    hide Storage.TrustOf;
    hide Sessions.EncryptAs;
    hide Hex;
  }
}
