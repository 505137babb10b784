/** The store's plaintext payload: v2 (contacts, messages, requests) and the
    legacy contacts-only layout. */
module StoreCodec {
  import opened Octets

  // TrustStatus.  The decoder casts any byte to the enum, so a status is a byte.
  const PENDING: byte := 0
  const ACCEPTED: byte := 1
  const REJECTED: byte := 2

  const PAYLOAD_VERSION: byte := 2

  datatype Contact = Contact(publicKey: Bytes, nickname: Bytes, trust: byte, lastSeen: i64)
  datatype Message = Message(peer: Bytes, text: Bytes, outgoing: bool, timestamp: i64)
  datatype Request = Request(peer: Bytes, greeting: Bytes, timestamp: i64)

  /** What the store holds in memory. */
  datatype Db = Db(contacts: seq<Contact>, messages: seq<Message>, requests: seq<Request>)

  const EMPTY: Db := Db([], [], [])

  // ---- records as rows ------------------------------------------------------
  // All three records are laid out alike: two fields, a byte (requests have
  // none) and a timestamp.  A Row is that layout.

  datatype Row = Row(key: Bytes, text: Bytes, tag: byte, time: i64)

  function ContactRow(c: Contact): Row { Row(c.publicKey, c.nickname, c.trust, c.lastSeen) }
  function MessageRow(m: Message): Row { Row(m.peer, m.text, if m.outgoing then 1 else 0, m.timestamp) }
  function RequestRow(q: Request): Row { Row(q.peer, q.greeting, 0, q.timestamp) }

  function RowContact(r: Row): Contact { Contact(r.key, r.text, r.tag, r.time) }
  function RowMessage(r: Row): Message { Message(r.key, r.text, r.tag != 0, r.time) }
  function RowRequest(r: Row): Request { Request(r.key, r.text, r.time) }

  function ContactRows(s: seq<Contact>): (t: seq<Row>)
    ensures |t| == |s| && forall i :: 0 <= i < |s| ==> t[i] == ContactRow(s[i])
  { seq(|s|, i requires 0 <= i < |s| => ContactRow(s[i])) }

  function MessageRows(s: seq<Message>): (t: seq<Row>)
    ensures |t| == |s| && forall i :: 0 <= i < |s| ==> t[i] == MessageRow(s[i])
  { seq(|s|, i requires 0 <= i < |s| => MessageRow(s[i])) }

  function RequestRows(s: seq<Request>): (t: seq<Row>)
    ensures |t| == |s| && forall i :: 0 <= i < |s| ==> t[i] == RequestRow(s[i])
  { seq(|s|, i requires 0 <= i < |s| => RequestRow(s[i])) }

  function RowContacts(t: seq<Row>): (s: seq<Contact>)
    ensures |t| == |s| && forall i :: 0 <= i < |s| ==> s[i] == RowContact(t[i])
  { seq(|t|, i requires 0 <= i < |t| => RowContact(t[i])) }

  function RowMessages(t: seq<Row>): (s: seq<Message>)
    ensures |t| == |s| && forall i :: 0 <= i < |s| ==> s[i] == RowMessage(t[i])
  { seq(|t|, i requires 0 <= i < |t| => RowMessage(t[i])) }

  function RowRequests(t: seq<Row>): (s: seq<Request>)
    ensures |t| == |s| && forall i :: 0 <= i < |s| ==> s[i] == RowRequest(t[i])
  { seq(|t|, i requires 0 <= i < |t| => RowRequest(t[i])) }

  // ---- writing --------------------------------------------------------------

  /** static_cast<uint64_t> of a signed 64-bit value, and back. */
  function ToU64(t: i64): u64 { if t < 0 then t + TWO64 else t }
  function ToI64(v: u64): i64 { if v >= 0x8000_0000_0000_0000 then v - TWO64 else v }

  /** The byte, when the record has one, and the timestamp. */
  function PutTail(tag: byte, time: i64, tagged: bool): Bytes
  {
    (if tagged then [tag] else []) + Be(8, ToU64(time))
  }

  function PutRow(r: Row, tagged: bool): Bytes
  {
    Field(r.key) + (Field(r.text) + PutTail(r.tag, r.time, tagged))
  }

  function PutRows(rows: seq<Row>, tagged: bool): Bytes
  {
    if rows == [] then [] else PutRow(rows[0], tagged) + PutRows(rows[1..], tagged)
  }

  /** A count cast to 32 bits, then the rows. */
  function PutList(rows: seq<Row>, tagged: bool): Bytes
  {
    Be(4, |rows|) + PutRows(rows, tagged)
  }

  function EncodeContacts(contacts: seq<Contact>): Bytes
  {
    PutList(ContactRows(contacts), true)
  }

  function Encode(db: Db): Bytes
  {
    [PAYLOAD_VERSION] + (EncodeContacts(db.contacts) +
      (PutList(MessageRows(db.messages), true) + PutList(RequestRows(db.requests), false)))
  }

  // ---- reading --------------------------------------------------------------

  lemma TimeFits(v: nat, n: nat, b: Bytes)
    requires n <= 8 && |b| == n && v == FromBe(b)
    ensures v < TWO64
  {
    Pow256Values();
    BeOfFromBe(b);
    Pow256Grows(n, 8);
  }

  lemma {:induction false} Pow256Grows(m: nat, n: nat)
    requires m <= n
    ensures Pow256(m) <= Pow256(n)
  {
    if m < n { Pow256Grows(m, n - 1); }
  }

  function TakeTail(b: Bytes, tagged: bool): Option<(byte, i64, Bytes)>
  {
    if tagged && b == [] then None else
      var tag: byte := if tagged then b[0] else 0;
      var b1 := if tagged then b[1..] else b;
      match TakeUint(8, b1)
      case None => None
      case Some((v, rest)) => TimeFits(v, 8, b1[..8]); Some((tag, ToI64(v), rest))
  }

  function TakeRow(b: Bytes, tagged: bool): Option<(Row, Bytes)>
  {
    match TakeField(b)
    case None => None
    case Some((key, b1)) =>
      match TakeField(b1)
      case None => None
      case Some((text, b2)) =>
        match TakeTail(b2, tagged)
        case None => None
        case Some((tag, time, rest)) => Some((Row(key, text, tag, time), rest))
  }

  function TakeRows(n: nat, b: Bytes, tagged: bool): Option<(seq<Row>, Bytes)>
  {
    if n == 0 then Some(([], b)) else
      match TakeRow(b, tagged)
      case None => None
      case Some((r, b1)) =>
        match TakeRows(n - 1, b1, tagged)
        case None => None
        case Some((rows, rest)) => Some(([r] + rows, rest))
  }

  function TakeList(b: Bytes, tagged: bool): Option<(seq<Row>, Bytes)>
  {
    match TakeUint(4, b)
    case None => None
    case Some((n, b1)) => TakeRows(n, b1, tagged)
  }

  /** The three v2 lists, with every byte used. */
  function DecodeLists(b: Bytes): Option<Db>
  {
    match TakeList(b, true)
    case None => None
    case Some((cs, b1)) =>
      match TakeList(b1, true)
      case None => None
      case Some((ms, b2)) =>
        match TakeList(b2, false)
        case None => None
        case Some((qs, rest)) =>
          if rest == [] then Some(Db(RowContacts(cs), RowMessages(ms), RowRequests(qs))) else None
  }

  function DecodeLegacy(b: Bytes): Option<Db>
  {
    match TakeList(b, true)
    case None => None
    case Some((cs, rest)) => if rest == [] then Some(Db(RowContacts(cs), [], [])) else None
  }

  /** The first byte picks the layout. */
  function Decode(blob: Bytes): Option<Db>
  {
    if blob != [] && blob[0] == PAYLOAD_VERSION then DecodeLists(blob[1..]) else DecodeLegacy(blob)
  }

  // ---- round trips on rows --------------------------------------------------

  predicate RowFits(r: Row, tagged: bool)
  {
    FitsField(r.key) && FitsField(r.text) && (!tagged ==> r.tag == 0)
  }

  predicate ListFits(rows: seq<Row>, tagged: bool)
  {
    |rows| < 0x1_0000_0000 && forall i :: 0 <= i < |rows| ==> RowFits(rows[i], tagged)
  }

  lemma TakeTailOfPutTail(tag: byte, time: i64, tagged: bool, rest: Bytes)
    requires !tagged ==> tag == 0
    ensures TakeTail(PutTail(tag, time, tagged) + rest, tagged) == Some((tag, time, rest))
  {
    Pow256Values();
    var b1 := Be(8, ToU64(time)) + rest;
    if tagged {
      assert PutTail(tag, time, tagged) + rest == [tag] + b1;
    } else {
      assert PutTail(tag, time, tagged) + rest == b1;
    }
    TakeUintOfBe(8, ToU64(time), rest);
  }

  lemma PutTailOfTakeTail(b: Bytes, tagged: bool)
    requires TakeTail(b, tagged).Some?
    ensures var (tag, time, rest) := TakeTail(b, tagged).value;
            (!tagged ==> tag == 0) && b == PutTail(tag, time, tagged) + rest
  {
    var b1 := if tagged then b[1..] else b;
    BeOfTakeUint(8, b1);
    var (v, rest) := TakeUint(8, b1).value;
    TimeFits(v, 8, b1[..8]);
    if tagged {
      assert b == [b[0]] + b1;
      Assoc([b[0]], Be(8, v), rest);
    } else {
      assert [] + Be(8, v) == Be(8, v);
    }
  }

  lemma TakeRowOfPutRow(r: Row, tagged: bool, rest: Bytes)
    requires RowFits(r, tagged)
    ensures TakeRow(PutRow(r, tagged) + rest, tagged) == Some((r, rest))
  {
    var tail := PutTail(r.tag, r.time, tagged);
    Assoc(Field(r.key), Field(r.text) + tail, rest);
    Assoc(Field(r.text), tail, rest);
    TakeFieldOfField(r.key, Field(r.text) + (tail + rest));
    TakeFieldOfField(r.text, tail + rest);
    TakeTailOfPutTail(r.tag, r.time, tagged, rest);
  }

  lemma PutRowOfTakeRow(b: Bytes, tagged: bool)
    requires TakeRow(b, tagged).Some?
    ensures var (r, rest) := TakeRow(b, tagged).value;
            RowFits(r, tagged) && b == PutRow(r, tagged) + rest
  {
    FieldOfTakeField(b);
    var (key, b1) := TakeField(b).value;
    FieldOfTakeField(b1);
    var (text, b2) := TakeField(b1).value;
    PutTailOfTakeTail(b2, tagged);
    var (tag, time, rest) := TakeTail(b2, tagged).value;
    var tail := PutTail(tag, time, tagged);
    Assoc(Field(key), Field(text) + tail, rest);
    Assoc(Field(text), tail, rest);
  }

  lemma {:induction false} TakeRowsOfPutRows(rows: seq<Row>, tagged: bool, rest: Bytes)
    requires forall i :: 0 <= i < |rows| ==> RowFits(rows[i], tagged)
    ensures TakeRows(|rows|, PutRows(rows, tagged) + rest, tagged) == Some((rows, rest))
  {
    hide TakeRow;
    hide PutRow;
    if rows == [] {
      assert PutRows(rows, tagged) + rest == rest;
    } else {
      var b1 := PutRows(rows[1..], tagged) + rest;
      Assoc(PutRow(rows[0], tagged), PutRows(rows[1..], tagged), rest);
      TakeRowOfPutRow(rows[0], tagged, b1);
      TakeRowsOfPutRows(rows[1..], tagged, rest);
      assert rows == [rows[0]] + rows[1..];
    }
  }

  lemma {:induction false} PutRowsOfTakeRows(n: nat, b: Bytes, tagged: bool)
    requires TakeRows(n, b, tagged).Some?
    ensures var (rows, rest) := TakeRows(n, b, tagged).value;
            && |rows| == n && b == PutRows(rows, tagged) + rest
            && forall i :: 0 <= i < n ==> RowFits(rows[i], tagged)
  {
    hide TakeRow;
    hide PutRow;
    if n > 0 {
      PutRowOfTakeRow(b, tagged);
      var (r, b1) := TakeRow(b, tagged).value;
      PutRowsOfTakeRows(n - 1, b1, tagged);
      var (rows, rest) := TakeRows(n - 1, b1, tagged).value;
      assert ([r] + rows)[1..] == rows;
      Assoc(PutRow(r, tagged), PutRows(rows, tagged), rest);
    }
  }

  lemma TakeListOfPutList(rows: seq<Row>, tagged: bool, rest: Bytes)
    requires ListFits(rows, tagged)
    ensures TakeList(PutList(rows, tagged) + rest, tagged) == Some((rows, rest))
  {
    Pow256Values();
    Assoc(Be(4, |rows|), PutRows(rows, tagged), rest);
    TakeUintOfBe(4, |rows|, PutRows(rows, tagged) + rest);
    TakeRowsOfPutRows(rows, tagged, rest);
  }

  lemma PutListOfTakeList(b: Bytes, tagged: bool)
    requires TakeList(b, tagged).Some?
    ensures var (rows, rest) := TakeList(b, tagged).value;
            ListFits(rows, tagged) && b == PutList(rows, tagged) + rest
  {
    Pow256Values();
    BeOfTakeUint(4, b);
    var (n, b1) := TakeUint(4, b).value;
    PutRowsOfTakeRows(n, b1, tagged);
    var (rows, rest) := TakeRows(n, b1, tagged).value;
    Assoc(Be(4, n), PutRows(rows, tagged), rest);
  }

  // ---- the store payload ----------------------------------------------------

  /** Every field has a u16 length and every list a u32 count. */
  predicate InBounds(db: Db)
  {
    ListFits(ContactRows(db.contacts), true) && ListFits(MessageRows(db.messages), true) &&
    ListFits(RequestRows(db.requests), false)
  }

  lemma PutNothing(tagged: bool)
    ensures PutList([], tagged) == Be(4, 0)
  {
  }

  lemma PutOne(r: Row, tagged: bool)
    ensures PutList([r], tagged) == Be(4, 1) + Field(r.key) + Field(r.text) + PutTail(r.tag, r.time, tagged)
  {
    assert [r][1..] == [];
    assert PutRows([r], tagged) == PutRow(r, tagged);
  }

  lemma SmallCount()
    ensures Be(4, 1) == [0, 0, 0, 1] && Be(2, 1) == [0, 1] && Be(2, 2) == [0, 2]
  {
    assert Be(1, 0) == [0] && Be(1, 1) == [1];
    assert Be(2, 0) == [0, 0];
    assert Be(3, 0) == Be(2, 0) + [0] == [0, 0, 0];
  }

  lemma SmallTimes()
    ensures Be(8, ToU64(258)) == [0, 0, 0, 0, 0, 0, 1, 2]
    ensures Be(8, ToU64(-2)) == [255, 255, 255, 255, 255, 255, 255, 254]
  {
    forall i | 0 <= i < 8
      ensures Be(8, ToU64(258))[i] == (if i == 7 then 2 else if i == 6 then 1 else 0)
      ensures Be(8, ToU64(-2))[i] == (if i == 7 then 254 else 255)
    {
      BeAt(8, ToU64(258), i);
      BeAt(8, ToU64(-2), i);
      Shifts(7 - i);
    }
  }

  lemma {:induction false} Shifts(k: nat)
    requires k < 8
    ensures Shr8(258, k) % 256 == (if k == 0 then 2 else if k == 1 then 1 else 0)
    ensures k >= 2 ==> Shr8(258, k) == 0
    ensures Shr8(TWO64 - 2, k) % 256 == (if k == 0 then 254 else 255)
    ensures Shr8(TWO64 - 2, k) == if k == 0 then TWO64 - 2 else Pow256(8 - k) - 1
  {
    if k > 0 {
      Shifts(k - 1);
      Pow256Values();
    }
  }

  const EXAMPLE: Db :=
    Db([Contact([7, 8], [9], ACCEPTED, 258)], [Message([7], [6, 5], true, -2)], [Request([4], [3], 258)])

  lemma ContactExample()
    ensures EncodeContacts(EXAMPLE.contacts) == [0, 0, 0, 1, 0, 2, 7, 8, 0, 1, 9, 1, 0, 0, 0, 0, 0, 0, 1, 2]
  {
    hide Be;
    SmallCount();
    SmallTimes();
    PutOne(Row([7, 8], [9], ACCEPTED, 258), true);
    assert ContactRows(EXAMPLE.contacts) == [Row([7, 8], [9], ACCEPTED, 258)];
  }

  lemma MessageExample()
    ensures PutList(MessageRows(EXAMPLE.messages), true)
         == [0, 0, 0, 1, 0, 1, 7, 0, 2, 6, 5, 1, 255, 255, 255, 255, 255, 255, 255, 254]
  {
    hide Be;
    SmallCount();
    SmallTimes();
    PutOne(Row([7], [6, 5], 1, -2), true);
    assert MessageRows(EXAMPLE.messages) == [Row([7], [6, 5], 1, -2)];
  }

  lemma RequestExample()
    ensures PutList(RequestRows(EXAMPLE.requests), false) == [0, 0, 0, 1, 0, 1, 4, 0, 1, 3, 0, 0, 0, 0, 0, 0, 1, 2]
  {
    hide Be;
    SmallCount();
    SmallTimes();
    PutOne(Row([4], [3], 0, 258), false);
    assert RequestRows(EXAMPLE.requests) == [Row([4], [3], 0, 258)];
  }

  /** One record of each kind, byte by byte: version 2; then contacts (key, nickname, trust,
      last seen), messages (peer, text, direction, time) and requests (peer, greeting,
      time), each list behind its count. */
  lemma EncodingExample()
    ensures Encode(EXAMPLE)
         == [2] + [0, 0, 0, 1, 0, 2, 7, 8, 0, 1, 9, 1, 0, 0, 0, 0, 0, 0, 1, 2]
          + [0, 0, 0, 1, 0, 1, 7, 0, 2, 6, 5, 1, 255, 255, 255, 255, 255, 255, 255, 254]
          + [0, 0, 0, 1, 0, 1, 4, 0, 1, 3, 0, 0, 0, 0, 0, 0, 1, 2]
  {
    hide PutList;
    hide EncodeContacts;
    ContactExample();
    MessageExample();
    RequestExample();
  }

  lemma RowsAreRecords(db: Db)
    ensures RowContacts(ContactRows(db.contacts)) == db.contacts
    ensures RowMessages(MessageRows(db.messages)) == db.messages
    ensures RowRequests(RequestRows(db.requests)) == db.requests
  {
  }

  lemma DecodeOfEncode(db: Db)
    requires InBounds(db)
    ensures Decode(Encode(db)) == Some(db)
  {
    hide TakeList;
    hide PutList;
    var b2 := PutList(RequestRows(db.requests), false);
    var b1 := PutList(MessageRows(db.messages), true) + b2;
    assert Encode(db)[1..] == EncodeContacts(db.contacts) + b1;
    TakeListOfPutList(ContactRows(db.contacts), true, b1);
    TakeListOfPutList(MessageRows(db.messages), true, b2);
    assert b2 == b2 + [];
    TakeListOfPutList(RequestRows(db.requests), false, []);
    RowsAreRecords(db);
  }

  lemma FitsAsRows(rows: seq<Row>)
    ensures ListFits(rows, true) ==> ListFits(ContactRows(RowContacts(rows)), true)
    ensures ListFits(rows, true) ==> ListFits(MessageRows(RowMessages(rows)), true)
    ensures ListFits(rows, false) ==> ListFits(RequestRows(RowRequests(rows)), false)
  {
    var c, m, q := ContactRows(RowContacts(rows)), MessageRows(RowMessages(rows)), RequestRows(RowRequests(rows));
    assert forall i :: 0 <= i < |rows| ==> c[i] == rows[i];
    assert forall i :: 0 <= i < |rows| ==> m[i].key == rows[i].key && m[i].text == rows[i].text;
    assert forall i :: 0 <= i < |rows| ==> q[i].key == rows[i].key && q[i].text == rows[i].text;
  }

  /** Nothing decodes out of bounds, whichever layout it came from. */
  lemma DecodedIsInBounds(blob: Bytes)
    requires Decode(blob).Some?
    ensures InBounds(Decode(blob).value)
  {
    if blob != [] && blob[0] == PAYLOAD_VERSION {
      PutListOfTakeList(blob[1..], true);
      var (cs, b1) := TakeList(blob[1..], true).value;
      PutListOfTakeList(b1, true);
      var (ms, b2) := TakeList(b1, true).value;
      PutListOfTakeList(b2, false);
      var (qs, _) := TakeList(b2, false).value;
      FitsAsRows(cs);
      FitsAsRows(ms);
      FitsAsRows(qs);
    } else {
      PutListOfTakeList(blob, true);
      FitsAsRows(TakeList(blob, true).value.0);
    }
  }

  /** Saving and loading gives the same lists back, exactly when they are in bounds. */
  lemma StoreRoundTrip(db: Db)
    ensures Decode(Encode(db)) == Some(db) <==> InBounds(db)
  {
    if InBounds(db) {
      DecodeOfEncode(db);
    } else if Decode(Encode(db)) == Some(db) {
      DecodedIsInBounds(Encode(db));
    }
  }

  /** Whatever loads, from either layout, re-saves to a v2 payload that loads to
      the same lists. */
  lemma ReencodeIsStable(blob: Bytes)
    requires Decode(blob).Some?
    ensures Decode(Encode(Decode(blob).value)) == Decode(blob)
  {
    DecodedIsInBounds(blob);
    StoreRoundTrip(Decode(blob).value);
  }

  lemma {:induction false} PutRowsLength(a: seq<Row>, b: seq<Row>, tagged: bool)
    requires |a| == |b|
    requires forall i :: 0 <= i < |a| ==> |a[i].key| == |b[i].key| && |a[i].text| == |b[i].text|
    ensures |PutRows(a, tagged)| == |PutRows(b, tagged)|
  {
    if a != [] { PutRowsLength(a[1..], b[1..], tagged); }
  }

  /** A v2 payload is as long as the re-encoding of what it decodes to. */
  lemma DecodeKeepsLength(blob: Bytes)
    requires Decode(blob).Some? && blob != [] && blob[0] == PAYLOAD_VERSION
    ensures |blob| == |Encode(Decode(blob).value)|
  {
    var (cs, b1) := TakeList(blob[1..], true).value;
    var (ms, b2) := TakeList(b1, true).value;
    var (qs, _) := TakeList(b2, false).value;
    PutListOfTakeList(blob[1..], true);
    PutListOfTakeList(b1, true);
    PutListOfTakeList(b2, false);
    PutRowsLength(cs, ContactRows(RowContacts(cs)), true);
    PutRowsLength(ms, MessageRows(RowMessages(ms)), true);
    PutRowsLength(qs, RequestRows(RowRequests(qs)), false);
  }

  lemma FirstByteOfCount(n: nat, rest: Bytes)
    requires n < 0x1_0000_0000
    ensures (Be(4, n) + rest)[0] == n / 0x100_0000
  {
    assert Be(4, n)[0] == Be(3, n / 256)[0] == Be(2, n / 256 / 256)[0] == Be(1, n / 256 / 256 / 256)[0];
  }

  /** A legacy contacts-only payload loads as it was saved, unless its count puts
      the v2 version byte first: 2^25 contacts or more, but fewer than 3 * 2^24. */
  lemma LegacyRoundTrip(contacts: seq<Contact>)
    ensures Decode(EncodeContacts(contacts)) == Some(Db(contacts, [], []))
       <==> ListFits(ContactRows(contacts), true) && |contacts| / 0x100_0000 != 2
  {
    var blob, rows := EncodeContacts(contacts), ContactRows(contacts);
    RowsAreRecords(Db(contacts, [], []));
    if ListFits(rows, true) {
      FirstByteOfCount(|rows|, PutRows(rows, true));
      if |contacts| / 0x100_0000 != 2 {
        assert blob + [] == blob;
        TakeListOfPutList(rows, true, []);
      } else if Decode(blob) == Some(Db(contacts, [], [])) {
        DecodeKeepsLength(blob);
        assert false;
      }
    } else if Decode(blob) == Some(Db(contacts, [], [])) {
      DecodedIsInBounds(blob);
    }
  }

  /** What the legacy round trip excludes: 2^25 blank contacts put the byte 2 first. */
  lemma LegacyFails()
    ensures var contacts := seq(0x200_0000, _ => Contact([], [], PENDING, 0));
            ListFits(ContactRows(contacts), true) && Decode(EncodeContacts(contacts)) != Some(Db(contacts, [], []))
  {
    LegacyRoundTrip(seq(0x200_0000, _ => Contact([], [], PENDING, 0)));
  }
}
