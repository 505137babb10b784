/** An encrypted session with one peer: one send counter, strictly increasing
    receive counter, the envelope bound as associated data. */
module Sessions {
  import opened Octets
  import opened Crypto
  import opened Wire

  /** key is None for a session whose key agreement failed; lastReceived is None
      until a first packet is accepted. */
  datatype Session = Session(local: Bytes, remote: Bytes, key: Option<Bytes>,
                             sendCounter: u64, lastReceived: Option<u64>)

  function New(c: Suite, local: Bytes, secret: Bytes, remote: Bytes): Session
  {
    Session(local, remote, c.agree(secret, remote), 0, None)
  }

  /** The packet of kind `kind` before it is sealed. */
  function Envelope(s: Session, kind: byte): Packet
  {
    Packet(VERSION, kind, FLAG_ENCRYPTED, s.sendCounter, s.local, s.remote, [])
  }

  function EncryptAs(c: Suite, s: Session, kind: byte, plaintext: Bytes, nonce: Bytes): (Session, Packet)
  {
    var packet := Envelope(s, kind);
    var s1 := s.(sendCounter := (s.sendCounter + 1) % TWO64);
    match s.key
    case None => (s1, packet)
    case Some(key) => (s1, packet.(payload := c.seal(key, nonce, plaintext, AssociatedData(packet))))
  }

  function Decrypt(c: Suite, s: Session, p: Packet): (Session, Option<Bytes>)
  {
    if s.key.None? || !p.Encrypted() then (s, None)
    else if p.source != s.remote || p.destination != s.local then (s, None)
    else if s.lastReceived.Some? && p.counter <= s.lastReceived.value then (s, None)
    else match c.open(s.key.value, p.payload, AssociatedData(p))
      case None => (s, None)
      case Some(plaintext) => (s.(lastReceived := Some(p.counter)), Some(plaintext))
  }

  // ---- replay safety over any use of a session ------------------------------

  datatype Use = Sending(kind: byte, plaintext: Bytes, nonce: Bytes) | Receiving(packet: Packet)

  function Step(c: Suite, s: Session, u: Use): Session
  {
    match u
    case Sending(kind, plaintext, nonce) => EncryptAs(c, s, kind, plaintext, nonce).0
    case Receiving(p) => Decrypt(c, s, p).0
  }

  /** The session after the first n of the uses. */
  function At(c: Suite, s: Session, us: seq<Use>, n: nat): Session
    requires n <= |us|
  {
    if n == 0 then s else Step(c, At(c, s, us, n - 1), us[n - 1])
  }

  function SendsBefore(us: seq<Use>, n: nat): nat
    requires n <= |us|
  {
    if n == 0 then 0 else SendsBefore(us, n - 1) + if us[n - 1].Sending? then 1 else 0
  }

  predicate AcceptedAt(c: Suite, s: Session, us: seq<Use>, i: nat)
    requires i < |us|
  {
    us[i].Receiving? && Decrypt(c, At(c, s, us, i), us[i].packet).1.Some?
  }

  predicate NoLater(a: Option<u64>, b: Option<u64>)
  {
    a.Some? ==> b.Some? && a.value <= b.value
  }

  lemma {:induction false} LastReceivedGrows(c: Suite, s: Session, us: seq<Use>, i: nat, j: nat)
    requires i <= j <= |us|
    ensures NoLater(At(c, s, us, i).lastReceived, At(c, s, us, j).lastReceived)
  {
    if i < j { LastReceivedGrows(c, s, us, i, j - 1); }
  }

  /** Of two packets a session accepts, the later has the larger counter; so no
      packet is accepted twice, whatever was sent or rejected in between. */
  lemma ReplaySafety(c: Suite, s: Session, us: seq<Use>, i: nat, j: nat)
    requires i < j < |us| && AcceptedAt(c, s, us, i) && AcceptedAt(c, s, us, j)
    ensures us[i].packet.counter < us[j].packet.counter
    ensures us[i].packet != us[j].packet
  {
    LastReceivedGrows(c, s, us, i + 1, j);
  }

  /** The ends and the key of a session never change. */
  lemma {:induction false} EndsStay(c: Suite, s: Session, us: seq<Use>, n: nat)
    requires n <= |us|
    ensures var t := At(c, s, us, n); t.local == s.local && t.remote == s.remote && t.key == s.key
  {
    if n > 0 { EndsStay(c, s, us, n - 1); }
  }

  /** Only packets marked encrypted, from the remote end to this one, that open under the
      session's key with their envelope as associated data, are ever accepted. */
  lemma AcceptedIsAuthentic(c: Suite, s: Session, us: seq<Use>, i: nat)
    requires i < |us| && AcceptedAt(c, s, us, i)
    ensures var p := us[i].packet;
            && p.flags % 2 == 1 && p.source == s.remote && p.destination == s.local
            && s.key.Some? && c.open(s.key.value, p.payload, AssociatedData(p)).Some?
  {
    EndsStay(c, s, us, i);
  }

  /** A rejected packet leaves the session as it was. */
  lemma RejectionIsInert(c: Suite, s: Session, us: seq<Use>, i: nat)
    requires i < |us| && us[i].Receiving? && !AcceptedAt(c, s, us, i)
    ensures At(c, s, us, i + 1) == At(c, s, us, i)
  {
  }

  lemma {:induction false} SendCounterCounts(c: Suite, s: Session, us: seq<Use>, n: nat)
    requires n <= |us|
    ensures At(c, s, us, n).sendCounter == (s.sendCounter + SendsBefore(us, n)) % TWO64
  {
    if n > 0 {
      SendCounterCounts(c, s, us, n - 1);
      WrapsOnce(s.sendCounter + SendsBefore(us, n - 1));
    }
  }

  lemma WrapsOnce(x: nat)
    ensures (x % TWO64 + 1) % TWO64 == (x + 1) % TWO64
  {
  }

  /** A fresh session numbers its packets, of every kind, 0, 1, 2, ... until the
      64-bit counter wraps. */
  lemma CountersAreConsecutive(c: Suite, s: Session, us: seq<Use>, i: nat)
    requires s.sendCounter == 0 && i < |us| && us[i].Sending?
    ensures var Sending(kind, plaintext, nonce) := us[i];
            var p := EncryptAs(c, At(c, s, us, i), kind, plaintext, nonce).1;
            && p.counter == SendsBefore(us, i) % TWO64
            && (SendsBefore(us, i) < TWO64 ==> p.counter == SendsBefore(us, i))
  {
    SendCounterCounts(c, s, us, i);
  }

  /** What one end seals the other end opens, exactly when its counter is new. */
  lemma SealedOpensAtPeer(c: Suite, a: Session, b: Session, kind: byte, plaintext: Bytes, nonce: Bytes)
    requires Correct(c) && a.key == b.key && a.key.Some? && |a.key.value| == SESSION_KEY_BYTES
    requires a.local == b.remote && a.remote == b.local
    ensures var p := EncryptAs(c, a, kind, plaintext, nonce).1;
            var newer := b.lastReceived.Some? ==> b.lastReceived.value < a.sendCounter;
            Decrypt(c, b, p) ==
              if newer then (b.(lastReceived := Some(a.sendCounter)), Some(plaintext)) else (b, None)
  {
    AssociatedDataIgnoresPayload(Envelope(a, kind), EncryptAs(c, a, kind, plaintext, nonce).1);
  }

  /** The associated data does not depend on the payload. */
  lemma AssociatedDataIgnoresPayload(p: Packet, q: Packet)
    requires SameEnvelope(p, q)
    ensures AssociatedData(p) == AssociatedData(q)
  {
  }

  // ---- the object -----------------------------------------------------------

  class SessionObject {
    const suite: Suite
    const localPublic: Bytes
    const remotePublic: Bytes
    const sharedKey: Bytes
    const valid: bool
    var sendCounter: u64
    var haveReceived: bool
    var lastReceived: u64

    function View(): Session
      reads this
    {
      Session(localPublic, remotePublic, if valid then Some(sharedKey) else None, sendCounter,
              if haveReceived then Some(lastReceived) else None)
    }

    constructor (suite: Suite, localPublic: Bytes, localSecret: Bytes, remotePublic: Bytes)
      ensures this.suite == suite
      ensures View() == New(suite, localPublic, localSecret, remotePublic)
    {
      this.suite, this.localPublic, this.remotePublic := suite, localPublic, remotePublic;
      var key := suite.agree(localSecret, remotePublic);
      sharedKey := if key.Some? then key.value else [];
      valid := key.Some?;
      sendCounter, haveReceived, lastReceived := 0, false, 0;
    }

    method Encrypt(kind: byte, plaintext: Bytes, nonce: Bytes) returns (packet: Packet)
      modifies this`sendCounter
      ensures (View(), packet) == EncryptAs(suite, old(View()), kind, plaintext, nonce)
    {
      packet := Packet(VERSION, kind, FLAG_ENCRYPTED, sendCounter, localPublic, remotePublic, []);
      sendCounter := (sendCounter + 1) % TWO64;
      if !valid { return; }
      var aad := AssociatedDataOf(packet);
      packet := packet.(payload := suite.seal(sharedKey, nonce, plaintext, aad));
    }

    method DecryptPacket(packet: Packet) returns (r: Option<Bytes>)
      modifies this`haveReceived, this`lastReceived
      ensures (View(), r) == Decrypt(suite, old(View()), packet)
    {
      if !valid { return None; }
      if !packet.Encrypted() { return None; }
      if packet.source != remotePublic || packet.destination != localPublic { return None; }
      if haveReceived && packet.counter <= lastReceived { return None; }
      var aad := AssociatedDataOf(packet);
      r := suite.open(sharedKey, packet.payload, aad);
      if r.None? { return; }
      haveReceived := true;
      lastReceived := packet.counter;
    }
  }
}
