/** The v1 packet envelope: serialize, associated_data and the strict parser. */
module Wire {
  import opened Octets

  const MAGIC: nat := 0x4F4D
  const VERSION: byte := 1
  const HEADER_SIZE: nat := 13

  // Packet types.  The parser keeps any byte, so a type is a byte.
  const HELLO: byte := 0x01
  const REGISTER: byte := 0x02
  const DISCOVER: byte := 0x03
  const CONNECT: byte := 0x04
  const CONTACT_REQUEST: byte := 0x05
  const CONTACT_RESPONSE: byte := 0x06
  const MESSAGE: byte := 0x07
  const ACK: byte := 0x08
  const HEARTBEAT: byte := 0x09
  const DISCONNECT: byte := 0x0A

  const FLAG_ENCRYPTED: byte := 0x01

  datatype Packet = Packet(
    version: byte, kind: byte, flags: byte, counter: u64,
    source: Bytes, destination: Bytes, payload: Bytes)
  {
    /** Flag bit 0x01. */
    predicate Encrypted() { flags % 2 == 1 }

    /** Every variable field has a u16 length. */
    predicate Fits() { FitsField(source) && FitsField(destination) && FitsField(payload) }
  }

  /** A v1 packet with no flags and counter zero, as the servers build them. */
  function Plain(kind: byte, source: Bytes, destination: Bytes, payload: Bytes): Packet
  {
    Packet(VERSION, kind, 0, 0, source, destination, payload)
  }

  datatype ParseError = TooShort | BadMagic | UnsupportedVersion | TruncatedField | TrailingBytes
  datatype ParseResult = Ok(packet: Packet) | Err(error: ParseError)

  // ---- specification --------------------------------------------------------

  function Header(p: Packet): (h: Bytes)
    ensures |h| == HEADER_SIZE
  {
    Be(2, MAGIC) + [p.version, p.kind, p.flags] + Be(8, p.counter)
  }

  function AssociatedData(p: Packet): Bytes
  {
    Header(p) + Field(p.source) + Field(p.destination)
  }

  function Serialize(p: Packet): Bytes
  {
    AssociatedData(p) + Field(p.payload)
  }

  /** The three fields after the header, and what is left. */
  function TakeFields(b: Bytes): Option<(Bytes, Bytes, Bytes, Bytes)>
  {
    match TakeField(b)
    case None => None
    case Some((source, b1)) =>
      match TakeField(b1)
      case None => None
      case Some((destination, b2)) =>
        match TakeField(b2)
        case None => None
        case Some((payload, rest)) => Some((source, destination, payload, rest))
  }

  function Parse(b: Bytes): ParseResult
  {
    if |b| < HEADER_SIZE then Err(TooShort)
    else if FromBe(b[..2]) != MAGIC then Err(BadMagic)
    else if b[2] != VERSION then Err(UnsupportedVersion)
    else match TakeFields(b[HEADER_SIZE..])
      case None => Err(TruncatedField)
      case Some((source, destination, payload, rest)) =>
        Counter64(b[5..13]);
        if rest != [] then Err(TrailingBytes)
        else Ok(Packet(VERSION, b[3], b[4], FromBe(b[5..13]), source, destination, payload))
  }

  lemma Counter64(b: Bytes)
    requires |b| == 8
    ensures FromBe(b) < TWO64
  {
    Pow256Values();
    BeOfFromBe(b);
  }

  // ---- the byte-pushing and offset-advancing code ---------------------------

  method PutField(out: Bytes, f: Bytes) returns (r: Bytes)
    ensures r == out + Field(f)
  {
    r := PutUint(out, 2, |f|);
    r := r + f;
  }

  method WriteHeaderAndRouting(out: Bytes, p: Packet) returns (r: Bytes)
    ensures r == out + AssociatedData(p)
  {
    r := PutUint(out, 2, MAGIC);
    r := r + [p.version];
    r := r + [p.kind];
    r := r + [p.flags];
    r := PutUint(r, 8, p.counter);
    assert r == out + Header(p);
    r := PutField(r, p.source);
    r := PutField(r, p.destination);
  }

  method SerializePacket(p: Packet) returns (out: Bytes)
    ensures out == Serialize(p)
  {
    out := WriteHeaderAndRouting([], p);
    out := PutField(out, p.payload);
  }

  method AssociatedDataOf(p: Packet) returns (out: Bytes)
    ensures out == AssociatedData(p)
  {
    out := WriteHeaderAndRouting([], p);
    assert [] + AssociatedData(p) == AssociatedData(p);
  }

  method ReadField(b: Bytes, off: nat) returns (ok: bool, next: nat, field: Bytes)
    requires off <= |b|
    ensures ok == TakeField(b[off..]).Some?
    ensures ok ==> next <= |b| && TakeField(b[off..]).value == (field, b[next..])
  {
    ok, next, field := false, off, [];
    if off + 2 > |b| { return; }
    var len := GetUint(b, off, 2);
    assert b[off..][..2] == b[off..off + 2] && b[off..][2..] == b[off + 2..];
    next := off + 2;
    if next + len > |b| { return; }
    field := b[next..next + len];
    assert b[off + 2..][..len] == field && b[off + 2..][len..] == b[next + len..];
    next := next + len;
    ok := true;
  }

  method ParsePacket(b: Bytes) returns (r: ParseResult)
    ensures r == Parse(b)
  {
    if |b| < HEADER_SIZE { return Err(TooShort); }
    var magic := GetUint(b, 0, 2);
    assert b[0..2] == b[..2];
    if magic != MAGIC { return Err(BadMagic); }
    var counter := GetUint(b, 5, 8);
    if b[2] != VERSION { return Err(UnsupportedVersion); }
    var ok, off, source := ReadField(b, HEADER_SIZE);
    if !ok { return Err(TruncatedField); }
    var destination, payload;
    ok, off, destination := ReadField(b, off);
    if !ok { return Err(TruncatedField); }
    ok, off, payload := ReadField(b, off);
    if !ok { return Err(TruncatedField); }
    if off != |b| { return Err(TrailingBytes); }
    Counter64(b[5..13]);
    return Ok(Packet(b[2], b[3], b[4], counter, source, destination, payload));
  }

  // ---- the layout -----------------------------------------------------------

  /** A field at an offset: its length in two bytes, high byte first, and its bytes. */
  predicate FieldAt(b: Bytes, off: nat, f: Bytes)
  {
    && off + 2 + |f| <= |b| && b[off] == |f| / 256 % 256 && b[off + 1] == |f| % 256
    && b[off + 2..off + 2 + |f|] == f
  }

  lemma FieldStands(a: Bytes, f: Bytes, rest: Bytes)
    ensures FieldAt(a + Field(f) + rest, |a|, f)
  {
    var b := a + Field(f) + rest;
    BeAt(2, |f|, 0);
    BeAt(2, |f|, 1);
    assert Shr8(|f|, 1) == Shr8(|f|, 0) / 256 == |f| / 256;
    assert Field(f)[0] == Be(2, |f|)[0] && Field(f)[1] == Be(2, |f|)[1];
    assert b[|a|] == Field(f)[0] && b[|a| + 1] == Field(f)[1];
    assert b[|a| + 2..|a| + 2 + |f|] == f;
  }

  /** Byte by byte: "OM", version, type, flags, the counter high byte first, and the three
      length-prefixed fields in order, nothing between or after. */
  lemma Layout(p: Packet)
    ensures var b := Serialize(p);
            var d := 15 + |p.source|;
            var y := d + 2 + |p.destination|;
            && |b| == y + 2 + |p.payload|
            && b[0] == 0x4F && b[1] == 0x4D && b[2] == p.version && b[3] == p.kind && b[4] == p.flags
            && (forall i :: 5 <= i < 13 ==> b[i] == Shr8(p.counter, 12 - i) % 256)
            && FieldAt(b, 13, p.source) && FieldAt(b, d, p.destination) && FieldAt(b, y, p.payload)
  {
    hide Field;
    hide Header;
    hide FieldAt;
    var b, h := Serialize(p), Header(p);
    var s, d, y := Field(p.source), Field(p.destination), Field(p.payload);
    FieldStands(h, p.source, d + y);
    FieldStands(h + s, p.destination, y);
    FieldStands(h + s + d, p.payload, []);
    Joined(h, s, d, y);
    HeaderStands(p);
  }

  lemma Joined(h: Bytes, s: Bytes, d: Bytes, y: Bytes)
    ensures var b := h + s + d + y;
            b == h + s + (d + y) && b == h + s + d + y + [] && forall i :: 0 <= i < |h| ==> b[i] == h[i]
  {
    Assoc(h + s, d, y);
  }

  lemma HeaderStands(p: Packet)
    ensures var h := Header(p);
            && h[0] == 0x4F && h[1] == 0x4D && h[2] == p.version && h[3] == p.kind && h[4] == p.flags
            && forall i :: 5 <= i < 13 ==> h[i] == Shr8(p.counter, 12 - i) % 256
  {
    MagicBytes();
    hide Be;
    hide Shr8;
    forall i | 5 <= i < 13
      ensures Header(p)[i] == Shr8(p.counter, 12 - i) % 256
    {
      BeAt(8, p.counter, i - 5);
    }
  }

  lemma MagicBytes()
    ensures Be(2, MAGIC) == [0x4F, 0x4D]
  {
    assert Be(1, MAGIC / 256) == Be(0, 0) + [0x4F] == [0x4F];
  }

  // ---- the parser inverts the serializer ------------------------------------

  lemma HeaderReadsBack(p: Packet, rest: Bytes)
    ensures var b := Header(p) + rest;
            && FromBe(b[..2]) == MAGIC && b[2] == p.version && b[3] == p.kind && b[4] == p.flags
            && FromBe(b[5..13]) == p.counter && b[HEADER_SIZE..] == rest
  {
    var b := Header(p) + rest;
    Pow256Values();
    FromBeOfBe(2, MAGIC);
    FromBeOfBe(8, p.counter);
    assert b[..2] == Be(2, MAGIC);
    assert b[5..13] == Be(8, p.counter);
  }

  lemma HeaderIsRead(b: Bytes, p: Packet)
    requires |b| >= HEADER_SIZE && FromBe(b[..2]) == MAGIC
    requires p.version == b[2] && p.kind == b[3] && p.flags == b[4] && p.counter == FromBe(b[5..13])
    ensures Header(p) == b[..HEADER_SIZE]
  {
    BeOfFromBe(b[..2]);
    BeOfFromBe(b[5..13]);
  }

  lemma TakeFieldsOfFields(p: Packet, rest: Bytes)
    requires p.Fits()
    ensures TakeFields(Field(p.source) + Field(p.destination) + Field(p.payload) + rest)
         == Some((p.source, p.destination, p.payload, rest))
  {
    hide TakeField;
    hide Field;
    var b2 := Field(p.payload) + rest;
    var b1 := Field(p.destination) + b2;
    assert Field(p.source) + Field(p.destination) + Field(p.payload) + rest == Field(p.source) + b1;
    TakeFieldOfField(p.source, b1);
    TakeFieldOfField(p.destination, b2);
    TakeFieldOfField(p.payload, rest);
  }

  lemma FieldsOfTakeFields(b: Bytes)
    requires TakeFields(b).Some?
    ensures var (s, d, y, rest) := TakeFields(b).value;
            && FitsField(s) && FitsField(d) && FitsField(y)
            && b == Field(s) + Field(d) + Field(y) + rest
  {
    hide TakeField;
    hide Field;
    FieldOfTakeField(b);
    var (s, b1) := TakeField(b).value;
    FieldOfTakeField(b1);
    var (d, b2) := TakeField(b1).value;
    FieldOfTakeField(b2);
    var (y, rest) := TakeField(b2).value;
    Assoc(Field(s), Field(d), Field(y) + rest);
    Assoc(Field(s) + Field(d), Field(y), rest);
  }

  lemma SerializeSplits(p: Packet)
    ensures Serialize(p) == Header(p) + (Field(p.source) + Field(p.destination) + Field(p.payload))
  {
  }

  /** What the parser says of a serialized packet followed by anything. */
  lemma ParseOfSerializePlus(p: Packet, rest: Bytes)
    requires p.version == VERSION && p.Fits()
    ensures Parse(Serialize(p) + rest) == if rest == [] then Ok(p) else Err(TrailingBytes)
  {
    var body := Field(p.source) + Field(p.destination) + Field(p.payload) + rest;
    assert Serialize(p) + rest == Header(p) + body;
    HeaderReadsBack(p, body);
    TakeFieldsOfFields(p, rest);
  }

  /** Whatever parses is exactly the serialization of what it parsed to. */
  lemma SerializeOfParse(b: Bytes)
    requires Parse(b).Ok?
    ensures var p := Parse(b).packet; p.version == VERSION && p.Fits() && Serialize(p) == b
  {
    var p := Parse(b).packet;
    FieldsOfTakeFields(b[HEADER_SIZE..]);
    HeaderIsRead(b, p);
    var body := Field(p.source) + Field(p.destination) + Field(p.payload);
    assert b[HEADER_SIZE..] == body + [] == body;
    assert b == b[..HEADER_SIZE] + b[HEADER_SIZE..];
    SerializeSplits(p);
  }

  /** Round trip, with the exact condition: a version-1 packet whose fields fit. */
  lemma RoundTrip(p: Packet)
    ensures Parse(Serialize(p)) == Ok(p) <==> p.version == VERSION && p.Fits()
  {
    if Parse(Serialize(p)) == Ok(p) {
      SerializeOfParse(Serialize(p));
    }
    if p.version == VERSION && p.Fits() {
      ParseOfSerializePlus(p, []);
      assert Serialize(p) + [] == Serialize(p);
    }
  }

  /** What the round trip excludes: an oversized payload is serialized without
      complaint and never parses, to this packet or to any other. */
  lemma OversizedPayloadIsRejected(p: Packet)
    requires p.version == VERSION && FitsField(p.source) && FitsField(p.destination) && !FitsField(p.payload)
    ensures Parse(Serialize(p)) == Err(TrailingBytes)
  {
    hide TakeField;
    hide Field;
    hide Header;
    var b2 := Field(p.payload);
    var b1 := Field(p.destination) + b2;
    var b0 := Field(p.source) + b1;
    assert Serialize(p) == Header(p) + b0;
    HeaderReadsBack(p, b0);
    TakeFieldOfField(p.source, b1);
    TakeFieldOfField(p.destination, b2);
    assert b2 + [] == b2;
    TakeFieldOfOversized(p.payload, []);
  }

  /** Two packets that do not come back: one byte too long, and of another version. */
  lemma RoundTripFails()
    ensures var long := Plain(MESSAGE, [], [], seq(0x1_0000, _ => 0));
            var next := Plain(MESSAGE, [], [], []).(version := 2);
            Parse(Serialize(long)) == Err(TrailingBytes) && Parse(Serialize(next)) == Err(UnsupportedVersion)
  {
    OversizedPayloadIsRejected(Plain(MESSAGE, [], [], seq(0x1_0000, _ => 0)));
    var next := Plain(MESSAGE, [], [], []).(version := 2);
    SerializeSplits(next);
    HeaderReadsBack(next, Field([]) + Field([]) + Field([]));
  }

  /** A datagram cut short, at any byte, is rejected as cut short. */
  lemma PrefixIsRejected(p: Packet, k: nat)
    requires p.version == VERSION && p.Fits() && k < |Serialize(p)|
    ensures Parse(Serialize(p)[..k]) == Err(if k < HEADER_SIZE then TooShort else TruncatedField)
  {
    hide TakeField;
    hide Field;
    hide Header;
    if k >= HEADER_SIZE {
      var b2 := Field(p.payload);
      var b1 := Field(p.destination) + b2;
      var b0 := Field(p.source) + b1;
      var n := k - HEADER_SIZE;
      assert Serialize(p) == Header(p) + b0;
      assert Serialize(p)[..k] == Header(p) + b0[..n];
      HeaderReadsBack(p, b0[..n]);
      TakeFieldOfPrefix(p.source, b1, n);
      if n >= |Field(p.source)| {
        var n1 := n - |Field(p.source)|;
        TakeFieldOfPrefix(p.destination, b2, n1);
        if n1 >= |Field(p.destination)| {
          var n2 := n1 - |Field(p.destination)|;
          assert b2 + [] == b2;
          TakeFieldOfPrefix(p.payload, [], n2);
        }
      }
    }
  }

  /** A datagram with anything appended is rejected. */
  lemma ExtensionIsRejected(p: Packet, extra: Bytes)
    requires p.version == VERSION && p.Fits() && extra != []
    ensures Parse(Serialize(p) + extra) == Err(TrailingBytes)
  {
    ParseOfSerializePlus(p, extra);
  }

  lemma MagicReads(b: Bytes)
    requires |b| >= 2
    ensures FromBe(b[..2]) == MAGIC <==> b[0] == 0x4F && b[1] == 0x4D
  {
    assert b[..2][..1] == [b[0]] && [b[0]][..0] == [];
    assert FromBe([b[0]]) == b[0];
  }

  /** Every error, exactly: by length, by the magic bytes, by the version byte, by bytes
      left over after a whole packet, and otherwise a field cut short. */
  lemma ErrorsAreExact(b: Bytes)
    ensures Parse(b) == Err(TooShort) <==> |b| < 13
    ensures Parse(b) == Err(BadMagic) <==> |b| >= 13 && !(b[0] == 0x4F && b[1] == 0x4D)
    ensures Parse(b) == Err(UnsupportedVersion) <==> |b| >= 13 && b[0] == 0x4F && b[1] == 0x4D && b[2] != 1
    ensures Parse(b) == Err(TrailingBytes) <==>
            exists p: Packet, extra: Bytes :: p.version == 1 && p.Fits() && extra != [] && b == Serialize(p) + extra
  {
    if |b| >= 13 { MagicReads(b); }
    if Parse(b) == Err(TrailingBytes) {
      var p, extra := TrailingSplits(b);
    }
    forall p: Packet, extra: Bytes | p.version == 1 && p.Fits() && extra != [] && b == Serialize(p) + extra
      ensures Parse(b) == Err(TrailingBytes)
    {
      ExtensionIsRejected(p, extra);
    }
  }

  lemma TrailingSplits(b: Bytes) returns (p: Packet, extra: Bytes)
    requires Parse(b) == Err(TrailingBytes)
    ensures p.version == 1 && p.Fits() && extra != [] && b == Serialize(p) + extra
  {
    hide TakeFields;
    FieldsOfTakeFields(b[HEADER_SIZE..]);
    var (source, destination, payload, rest) := TakeFields(b[HEADER_SIZE..]).value;
    Counter64(b[5..13]);
    p, extra := Packet(VERSION, b[3], b[4], FromBe(b[5..13]), source, destination, payload), rest;
    HeaderIsRead(b, p);
    SerializeSplits(p);
    Assoc(Header(p), Field(source) + Field(destination) + Field(payload), rest);
    assert b == b[..HEADER_SIZE] + b[HEADER_SIZE..];
  }

  predicate SameEnvelope(p: Packet, q: Packet)
  {
    p.version == q.version && p.kind == q.kind && p.flags == q.flags && p.counter == q.counter &&
    p.source == q.source && p.destination == q.destination
  }

  lemma FieldInjective(f: Bytes, g: Bytes)
    requires Field(f) == Field(g)
    ensures f == g
  {
    assert Field(f)[2..] == f && Field(g)[2..] == g;
  }

  /** The only way two different sources could be mistaken for one another: the same
      16-bit length prefix and the same total, but different lengths. */
  predicate SourcesTell(p: Packet, q: Packet)
  {
    (|p.source| % 0x1_0000 == |q.source| % 0x1_0000 &&
     |p.source| + |p.destination| == |q.source| + |q.destination|) ==> |p.source| == |q.source|
  }

  lemma FieldsOfEqualLength(f: Bytes, g: Bytes, a: Bytes, b: Bytes)
    requires |f| == |g| && Field(f) + a == Field(g) + b
    ensures f == g && a == b
  {
    var s, t := Field(f) + a, Field(g) + b;
    assert s[2..2 + |f|] == f && t[2..2 + |g|] == g;
    assert s[2 + |f|..] == a && t[2 + |g|..] == b;
  }

  lemma LengthPrefix(f: Bytes, rest: Bytes)
    ensures FromBe((Field(f) + rest)[..2]) == |f| % 0x1_0000
  {
    LowBytes(|f|);
    assert (Field(f) + rest)[..2] == Be(2, |f|);
  }

  /** The associated data pins down every header and routing field, and nothing
      else: two packets share it exactly when their envelopes agree. */
  lemma AssociatedDataInjective(p: Packet, q: Packet)
    requires SourcesTell(p, q)
    ensures AssociatedData(p) == AssociatedData(q) <==> SameEnvelope(p, q)
  {
    hide Field;
    hide Header;
    if AssociatedData(p) == AssociatedData(q) {
      var rp := Field(p.source) + Field(p.destination);
      var rq := Field(q.source) + Field(q.destination);
      Assoc(Header(p), Field(p.source), Field(p.destination));
      Assoc(Header(q), Field(q.source), Field(q.destination));
      HeaderReadsBack(p, rp);
      HeaderReadsBack(q, rq);
      LengthPrefix(p.source, Field(p.destination));
      LengthPrefix(q.source, Field(q.destination));
      assert |rp| == |rq|;
      FieldsOfEqualLength(p.source, q.source, Field(p.destination), Field(q.destination));
      FieldInjective(p.destination, q.destination);
    }
    if SameEnvelope(p, q) { assert Header(p) == Header(q) by { SameHeader(p, q); } }
  }

  lemma SameHeader(p: Packet, q: Packet)
    requires SameEnvelope(p, q)
    ensures Header(p) == Header(q)
  {
  }

  /** So a packet whose routing fields fit shares its associated data with no packet of
      another envelope, oversized ones included. */
  lemma FittingEnvelopeIsUnique(p: Packet, q: Packet)
    requires FitsField(p.source) && FitsField(p.destination)
    ensures AssociatedData(p) == AssociatedData(q) <==> SameEnvelope(p, q)
  {
    AssociatedDataInjective(p, q);
  }

  /** What that excludes: with oversized sources two envelopes can share it. */
  lemma AssociatedDataCollides()
    ensures var zeros := seq(0x1_0000, _ => 0);
            var p, q := Plain(MESSAGE, zeros, [], []), Plain(MESSAGE, [], zeros, []);
            AssociatedData(p) == AssociatedData(q) && !SameEnvelope(p, q)
  {
    var zeros: Bytes := seq(0x1_0000, _ => 0);
    var p, q := Plain(MESSAGE, zeros, [], []), Plain(MESSAGE, [], zeros, []);
    assert Be(1, 0x100) == [0] && Be(2, 0x1_0000) == [0, 0];
    assert Be(1, 0) == [0] && Be(2, 0) == [0, 0];
    assert Field(p.source) + Field(p.destination) == Field(q.source) + Field(q.destination);
    Assoc(Header(p), Field(p.source), Field(p.destination));
    Assoc(Header(q), Field(q.source), Field(q.destination));
    assert |p.source| != |q.source|;
  }
}
