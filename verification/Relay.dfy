/** The relay: it learns where peers are from the packets they send and passes on,
    unread, whatever is addressed to a peer it knows. */
module Relay {
  import opened Octets
  import opened HexKeys
  import opened Wire
  import opened EndpointText
  import PeerTable

  datatype Forward = Forward(to: Endpoint, data: Bytes)

  function Handle(routes: PeerTable.Table, data: Bytes, from: Endpoint, now: int): (PeerTable.Table, Option<Forward>)
  {
    match Parse(data)
    case Err(_) => (routes, None)
    case Ok(p) =>
      var learned := if p.source == [] then routes else routes[Hex(p.source) := PeerTable.Entry(from, now)];
      if p.destination == [] then (learned, None) else
        match PeerTable.Lookup(learned, Hex(p.destination))
        case None => (learned, None)
        case Some(to) => (learned, Some(Forward(to, data)))
  }

  /** run_once: at most one datagram, then a sweep. */
  function RunOnce(ttl: nat, routes: PeerTable.Table, datagram: Option<(Bytes, Endpoint)>, now: int)
      : (PeerTable.Table, Option<Forward>)
  {
    var (t, out) := if datagram.Some? then Handle(routes, datagram.value.0, datagram.value.1, now) else (routes, None);
    (PeerTable.Expired(t, now - ttl), out)
  }

  class RelayServer {
    const routeTtl: nat
    const routes: PeerTable.PeerTableObject

    constructor (routeTtl: nat)
      ensures this.routeTtl == routeTtl && fresh(routes) && routes.peers == map[]
    {
      this.routeTtl := routeTtl;
      routes := new PeerTable.PeerTableObject();
    }

    method HandleDatagram(data: Bytes, from: Endpoint, now: int) returns (out: Option<Forward>)
      modifies routes
      ensures (routes.peers, out) == Handle(old(routes.peers), data, from, now)
    {
      hide Parse;
      var parsed := ParsePacket(data);
      if parsed.Err? { return None; }
      var p := parsed.packet;
      if |p.source| > 0 {
        var key := ToHex(p.source);
        routes.Upsert(key, from, now);
      }
      if |p.destination| > 0 {
        var key := ToHex(p.destination);
        var to := routes.Find(key);
        if to.Some? { return Some(Forward(to.value, data)); }
      }
      return None;
    }

    method Once(datagram: Option<(Bytes, Endpoint)>, now: int) returns (processed: bool, sent: Option<Forward>)
      modifies routes
      ensures processed == datagram.Some?
      ensures (routes.peers, sent) == RunOnce(routeTtl, old(routes.peers), datagram, now)
    {
      hide Handle;
      processed, sent := false, None;
      if datagram.Some? {
        sent := HandleDatagram(datagram.value.0, datagram.value.1, now);
        processed := true;
      }
      routes.Expire(now - routeTtl);
    }
  }

  // ---- whole traces ---------------------------------------------------------

  datatype Input = Arrives(data: Bytes, from: Endpoint, now: int) | Swept(now: int)

  datatype Entry = Entry(pre: PeerTable.Table, x: Input, post: PeerTable.Table, out: Option<Forward>)

  function Step(ttl: nat, t: PeerTable.Table, x: Input): (PeerTable.Table, Option<Forward>)
  {
    match x
    case Arrives(data, from, now) => Handle(t, data, from, now)
    case Swept(now) => (PeerTable.Expired(t, now - ttl), None)
  }

  function At(trace: seq<Entry>, n: nat): PeerTable.Table
    requires n <= |trace|
  {
    if n == 0 then map[] else trace[n - 1].post
  }

  ghost predicate IsStep(ttl: nat, trace: seq<Entry>, i: nat)
    requires i < |trace|
  {
    trace[i].pre == At(trace, i) && (trace[i].post, trace[i].out) == Step(ttl, trace[i].pre, trace[i].x)
  }

  ghost predicate IsTrace(ttl: nat, trace: seq<Entry>)
  {
    forall i :: 0 <= i < |trace| ==> IsStep(ttl, trace, i)
  }

  /** Every packet with a source is a sign of life of that source. */
  function OpOf(x: Input): PeerTable.Op
  {
    match x
    case Swept(now) => PeerTable.Sweep(now)
    case Arrives(data, from, now) =>
      if Parse(data).Ok? && Parse(data).packet.source != []
      then PeerTable.Put(Hex(Parse(data).packet.source), from, now)
      else PeerTable.Skip
  }

  function LogOf(trace: seq<Entry>): (log: seq<PeerTable.Op>)
    ensures |log| == |trace| && forall i :: 0 <= i < |trace| ==> log[i] == OpOf(trace[i].x)
  {
    seq(|trace|, i requires 0 <= i < |trace| => OpOf(trace[i].x))
  }

  lemma StepLogsItself(ttl: nat, t: PeerTable.Table, x: Input)
    ensures Step(ttl, t, x).0 == PeerTable.Apply(ttl, t, OpOf(x))
  {
    hide Parse;
    hide Hex;
    hide PeerTable.Expired;
  }

  lemma {:induction false} RoutesAreTable(ttl: nat, trace: seq<Entry>, n: nat)
    requires IsTrace(ttl, trace) && n <= |trace|
    ensures At(trace, n) == PeerTable.TableAt(ttl, LogOf(trace), n)
  {
    hide Step;
    hide PeerTable.Apply;
    hide OpOf;
    if n > 0 {
      RoutesAreTable(ttl, trace, n - 1);
      assert IsStep(ttl, trace, n - 1);
      StepLogsItself(ttl, trace[n - 1].pre, trace[n - 1].x);
    }
  }

  ghost predicate ClockIsMonotone(trace: seq<Entry>)
  {
    forall i, j :: 0 <= i < j < |trace| ==> trace[i].x.now <= trace[j].x.now
  }

  /** The route to a peer is where its latest packet came from, while that packet is
      within the TTL of the last sweep. */
  lemma RoutesAgreeWithLog(ttl: nat, trace: seq<Entry>, n: nat, key: Bytes)
    requires IsTrace(ttl, trace) && n <= |trace| && ClockIsMonotone(trace)
    ensures var online := PeerTable.Online(ttl, LogOf(trace), n, Hex(key));
            PeerTable.Lookup(At(trace, n), Hex(key)) == if online.Some? then Some(online.value.endpoint) else None
  {
    hide Step;
    RoutesAreTable(ttl, trace, n);
    PeerTable.TableAgreesWithLog(ttl, LogOf(trace), n, Hex(key));
  }

  /** After a sweep, hence after every run_once, each route is recent. */
  lemma RoutesAreRecent(ttl: nat, trace: seq<Entry>, n: nat, key: string)
    requires IsTrace(ttl, trace) && 0 < n <= |trace| && ClockIsMonotone(trace) && trace[n - 1].x.Swept?
    requires key in At(trace, n)
    ensures var now := trace[n - 1].x.now; now - ttl <= At(trace, n)[key].lastSeen <= now
  {
    hide Step;
    RoutesAreTable(ttl, trace, n);
    PeerTable.SweptEntriesAreRecent(ttl, LogOf(trace), n, key);
  }

  /** A datagram addressed to a peer is passed on, byte for byte, exactly when the
      log, up to and including it, says the peer is online, and to the endpoint the
      log gives; nothing else is ever sent. */
  lemma ForwardingFollowsTheLog(ttl: nat, trace: seq<Entry>, i: nat)
    requires IsTrace(ttl, trace) && i < |trace| && ClockIsMonotone(trace) && trace[i].x.Arrives?
    ensures trace[i].out ==
            match Parse(trace[i].x.data)
            case Err(_) => None
            case Ok(p) =>
              var online := PeerTable.Online(ttl, LogOf(trace), i + 1, Hex(p.destination));
              if p.destination != [] && online.Some?
              then Some(Forward(online.value.endpoint, trace[i].x.data)) else None
  {
    hide PeerTable.Online;
    hide Parse;
    hide Hex;
    assert IsStep(ttl, trace, i);
    if Parse(trace[i].x.data).Ok? {
      RoutesAgreeWithLog(ttl, trace, i + 1, Parse(trace[i].x.data).packet.destination);
    }
  }

  // ---- traces of run_once ---------------------------------------------------

  datatype Round = Round(datagram: Option<(Bytes, Endpoint)>, now: int)

  function RoutesAfter(ttl: nat, rounds: seq<Round>): PeerTable.Table
  {
    if rounds == [] then map[] else
      var r := rounds[|rounds| - 1];
      RunOnce(ttl, RoutesAfter(ttl, rounds[..|rounds| - 1]), r.datagram, r.now).0
  }

  function Extend(ttl: nat, trace: seq<Entry>, x: Input): seq<Entry>
  {
    var s := At(trace, |trace|);
    var (t, out) := Step(ttl, s, x);
    trace + [Entry(s, x, t, out)]
  }

  /** A round is the datagram, if one came, and a sweep. */
  function ExtendRound(ttl: nat, trace: seq<Entry>, r: Round): seq<Entry>
  {
    var handled := match r.datagram
                   case None => trace
                   case Some((data, from)) => Extend(ttl, trace, Arrives(data, from, r.now));
    Extend(ttl, handled, Swept(r.now))
  }

  function TraceOf(ttl: nat, rounds: seq<Round>): seq<Entry>
  {
    if rounds == [] then [] else ExtendRound(ttl, TraceOf(ttl, rounds[..|rounds| - 1]), rounds[|rounds| - 1])
  }

  lemma ExtendIsTrace(ttl: nat, trace: seq<Entry>, x: Input)
    requires IsTrace(ttl, trace)
    ensures var t := Extend(ttl, trace, x);
            IsTrace(ttl, t) && |t| == |trace| + 1 && t[..|trace|] == trace &&
            At(t, |t|) == Step(ttl, At(trace, |trace|), x).0
  {
    hide Step;
    var t := Extend(ttl, trace, x);
    forall i | 0 <= i < |t|
      ensures IsStep(ttl, t, i)
    {
      if i < |trace| { assert IsStep(ttl, trace, i); }
    }
  }

  /** A round leaves the routes its steps leave and forwards what they forward. */
  lemma RoundTakesItsSteps(ttl: nat, trace: seq<Entry>, r: Round)
    requires IsTrace(ttl, trace)
    ensures var t := ExtendRound(ttl, trace, r);
            var (routes, sent) := RunOnce(ttl, At(trace, |trace|), r.datagram, r.now);
            && IsTrace(ttl, t) && |trace| < |t| && t[..|trace|] == trace && t[|t| - 1].x == Swept(r.now)
            && (forall i :: |trace| <= i < |t| ==> t[i].x.now == r.now)
            && At(t, |t|) == routes && sent == t[|trace|].out
  {
    hide Handle;
    hide PeerTable.Expired;
    if r.datagram.Some? {
      var x := Arrives(r.datagram.value.0, r.datagram.value.1, r.now);
      ExtendIsTrace(ttl, trace, x);
      ExtendIsTrace(ttl, Extend(ttl, trace, x), Swept(r.now));
    } else {
      ExtendIsTrace(ttl, trace, Swept(r.now));
    }
  }

  predicate RoundsAscend(rounds: seq<Round>)
  {
    forall i, j :: 0 <= i < j < |rounds| ==> rounds[i].now <= rounds[j].now
  }

  /** Every relay that ever ran is at the end of a trace. */
  lemma {:induction false} RoundsAreATrace(ttl: nat, rounds: seq<Round>)
    ensures var t := TraceOf(ttl, rounds);
            && IsTrace(ttl, t) && At(t, |t|) == RoutesAfter(ttl, rounds)
            && (rounds != [] ==> t != [] && t[|t| - 1].x == Swept(rounds[|rounds| - 1].now))
            && (RoundsAscend(rounds) ==> ClockIsMonotone(t))
            && (RoundsAscend(rounds) && rounds != [] ==>
                  forall i :: 0 <= i < |t| ==> t[i].x.now <= rounds[|rounds| - 1].now)
  {
    hide Step;
    hide ExtendRound;
    hide RunOnce;
    if rounds != [] {
      var front, r := rounds[..|rounds| - 1], rounds[|rounds| - 1];
      RoundsAreATrace(ttl, front);
      var before, t := TraceOf(ttl, front), TraceOf(ttl, rounds);
      RoundTakesItsSteps(ttl, before, r);
      if RoundsAscend(rounds) {
        assert RoundsAscend(front);
        if front != [] { assert rounds[|front| - 1].now <= r.now; }
        assert forall i :: 0 <= i < |before| ==> t[i] == before[i];
      }
    }
  }

  /** After each run_once, on a clock that does not go back, every route is recent and
      leads where the log says. */
  lemma RoutesAfterRunOnce(ttl: nat, rounds: seq<Round>, key: Bytes)
    requires rounds != [] && RoundsAscend(rounds)
    ensures var routes, now := RoutesAfter(ttl, rounds), rounds[|rounds| - 1].now;
            var log := LogOf(TraceOf(ttl, rounds));
            var online := PeerTable.Online(ttl, log, |log|, Hex(key));
            && PeerTable.Lookup(routes, Hex(key)) == (if online.Some? then Some(online.value.endpoint) else None)
            && (Hex(key) in routes ==> now - ttl <= routes[Hex(key)].lastSeen <= now)
  {
    hide Step;
    hide TraceOf;
    hide RoutesAfter;
    hide PeerTable.Online;
    hide IsTrace;
    hide ClockIsMonotone;
    hide LogOf;
    hide Hex;
    RoundsAreATrace(ttl, rounds);
    var t := TraceOf(ttl, rounds);
    RoutesAgreeWithLog(ttl, t, |t|, key);
    if Hex(key) in RoutesAfter(ttl, rounds) { RoutesAreRecent(ttl, t, |t|, Hex(key)); }
  }
}
