/** Where peers were last seen: the signaling server's registry and the relay's
    routes are the same table, swept of entries idle for longer than a TTL. */
module PeerTable {
  import opened Octets
  import opened EndpointText

  datatype Entry = Entry(endpoint: Endpoint, lastSeen: int)

  type Table = map<string, Entry>

  function Lookup(t: Table, key: string): Option<Endpoint>
  {
    if key in t then Some(t[key].endpoint) else None
  }

  /** expire(cutoff). */
  function Expired(t: Table, cutoff: int): Table
  {
    map key | key in t && t[key].lastSeen >= cutoff :: t[key]
  }

  // ---- the table against its log --------------------------------------------

  /** One line of the log. */
  datatype Op =
    | Put(key: string, endpoint: Endpoint, now: int)     // a verified registration; a relayed packet
    | Touch(key: string, endpoint: Endpoint, now: int)   // a heartbeat: counts only while present
    | Drop(key: string)                                  // a disconnect
    | Sweep(now: int)
    | Skip

  function Apply(ttl: int, t: Table, op: Op): Table
  {
    match op
    case Put(key, endpoint, now) => t[key := Entry(endpoint, now)]
    case Touch(key, endpoint, now) => if key in t then t[key := Entry(endpoint, now)] else t
    case Drop(key) => t - {key}
    case Sweep(now) => Expired(t, now - ttl)
    case Skip => t
  }

  /** The table after the first n lines. */
  function TableAt(ttl: int, log: seq<Op>, n: nat): Table
    requires n <= |log|
  {
    if n == 0 then map[] else Apply(ttl, TableAt(ttl, log, n - 1), log[n - 1])
  }

  /** The time of the last sweep before line n. */
  function LastSweep(log: seq<Op>, n: nat): Option<int>
    requires n <= |log|
  {
    if n == 0 then None else if log[n - 1].Sweep? then Some(log[n - 1].now) else LastSweep(log, n - 1)
  }

  /** Reading the log backwards: the last sign of life of a peer, where a heartbeat
      is one only if the peer was online when it came. */
  function LastSign(ttl: int, log: seq<Op>, n: nat, key: string): Option<Entry>
    requires n <= |log|
    decreases n, 0
  {
    if n == 0 then None else
      match log[n - 1]
      case Put(k, endpoint, now) => if k == key then Some(Entry(endpoint, now)) else LastSign(ttl, log, n - 1, key)
      case Touch(k, endpoint, now) =>
        if k == key && Online(ttl, log, n - 1, key).Some? then Some(Entry(endpoint, now))
        else LastSign(ttl, log, n - 1, key)
      case Drop(k) => if k == key then None else LastSign(ttl, log, n - 1, key)
      case _ => LastSign(ttl, log, n - 1, key)
  }

  /** A peer is online when its last sign of life was within the TTL of the last
      sweep.  No table, no erasing. */
  function Online(ttl: int, log: seq<Op>, n: nat, key: string): Option<Entry>
    requires n <= |log|
    decreases n, 1
  {
    match LastSign(ttl, log, n, key)
    case None => None
    case Some(e) =>
      if LastSweep(log, n).Some? && LastSweep(log, n).value - ttl > e.lastSeen then None else Some(e)
  }

  function ClockOf(op: Op): Option<int>
  {
    match op
    case Put(_, _, now) => Some(now)
    case Touch(_, _, now) => Some(now)
    case Sweep(now) => Some(now)
    case _ => None
  }

  ghost predicate ClockIsMonotone(log: seq<Op>)
  {
    forall i, j :: 0 <= i < j < |log| && ClockOf(log[i]).Some? && ClockOf(log[j]).Some? ==>
      ClockOf(log[i]).value <= ClockOf(log[j]).value
  }

  lemma {:induction false} LastSweepIsLogged(log: seq<Op>, n: nat)
    requires n <= |log| && LastSweep(log, n).Some?
    ensures exists i :: 0 <= i < n && log[i].Sweep? && LastSweep(log, n) == Some(log[i].now)
  {
    if !log[n - 1].Sweep? { LastSweepIsLogged(log, n - 1); }
  }

  /** On a monotone clock no line is timed before an earlier sweep. */
  lemma SweepIsPast(log: seq<Op>, n: nat)
    requires n < |log| && ClockIsMonotone(log) && LastSweep(log, n).Some? && ClockOf(log[n]).Some?
    ensures LastSweep(log, n).value <= ClockOf(log[n]).value
  {
    LastSweepIsLogged(log, n);
  }

  /** The swept table holds a peer exactly when the log says it is online, with the
      endpoint and time of its last sign of life. */
  lemma {:induction false} TableAgreesWithLog(ttl: int, log: seq<Op>, n: nat, key: string)
    requires ttl >= 0 && ClockIsMonotone(log) && n <= |log|
    ensures Online(ttl, log, n, key) == var t := TableAt(ttl, log, n); if key in t then Some(t[key]) else None
  {
    if n > 0 {
      TableAgreesWithLog(ttl, log, n - 1, key);
      if LastSweep(log, n - 1).Some? && ClockOf(log[n - 1]).Some? { SweepIsPast(log, n - 1); }
    }
  }

  lemma {:induction false} SignsAreLogged(ttl: int, log: seq<Op>, n: nat, key: string)
    requires n <= |log| && LastSign(ttl, log, n, key).Some?
    ensures exists i :: 0 <= i < n && ClockOf(log[i]) == Some(LastSign(ttl, log, n, key).value.lastSeen)
  {
    var sign := LastSign(ttl, log, n, key).value;
    if LastSign(ttl, log, n - 1, key) == Some(sign) {
      SignsAreLogged(ttl, log, n - 1, key);
    } else {
      assert ClockOf(log[n - 1]) == Some(sign.lastSeen);
    }
  }

  /** Right after a sweep, every entry was seen within the TTL and not later. */
  lemma SweptEntriesAreRecent(ttl: int, log: seq<Op>, n: nat, key: string)
    requires ttl >= 0 && ClockIsMonotone(log) && 0 < n <= |log| && log[n - 1].Sweep?
    requires key in TableAt(ttl, log, n)
    ensures log[n - 1].now - ttl <= TableAt(ttl, log, n)[key].lastSeen <= log[n - 1].now
  {
    TableAgreesWithLog(ttl, log, n, key);
    SignsAreLogged(ttl, log, n, key);
  }

  // ---- the object -----------------------------------------------------------

  class PeerTableObject {
    var peers: Table

    constructor ()
      ensures peers == map[]
    {
      peers := map[];
    }

    method Upsert(key: string, endpoint: Endpoint, now: int)
      modifies this
      ensures peers == old(peers)[key := Entry(endpoint, now)]
    {
      peers := peers[key := Entry(endpoint, now)];
    }

    method Find(key: string) returns (r: Option<Endpoint>)
      ensures r == Lookup(peers, key)
    {
      if key !in peers { return None; }
      return Some(peers[key].endpoint);
    }

    method Remove(key: string) returns (removed: bool)
      modifies this
      ensures peers == old(peers) - {key} && removed == (key in old(peers))
    {
      removed := key in peers;
      peers := peers - {key};
    }

    /** Erase while iterating, in whatever order the map yields its keys. */
    method Expire(cutoff: int)
      modifies this
      ensures peers == Expired(old(peers), cutoff)
    {
      var todo := peers.Keys;
      while todo != {}
        invariant todo <= peers.Keys <= old(peers).Keys
        invariant forall key :: key in old(peers) ==>
                    if key in todo then key in peers else (key in peers <==> old(peers)[key].lastSeen >= cutoff)
        invariant forall key :: key in peers ==> peers[key] == old(peers)[key]
        decreases |todo|
      {
        var key :| key in todo;
        if peers[key].lastSeen < cutoff { peers := peers - {key}; }
        todo := todo - {key};
      }
    }
  }
}
