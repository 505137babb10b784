/** The storage payload's byte buffers: the bounds-checked cursor, the encode and
    decode loops, and the encrypted-file container with its authenticated header. */
module Blob {
  import opened Octets
  import opened StoreCodec
  import opened Crypto

  // ---- the cursor -----------------------------------------------------------

  class Reader {
    const bytes: Bytes
    var off: nat

    ghost predicate Valid() reads this { off <= |bytes| }

    /** What has not been read yet. */
    ghost function Left(): Bytes
      requires Valid()
      reads this
    {
      bytes[off..]
    }

    constructor (b: Bytes)
      ensures Valid() && bytes == b && Left() == b
    {
      bytes, off := b, 0;
    }

    method Uint(n: nat) returns (ok: bool, v: nat)
      requires Valid()
      modifies this
      ensures Valid()
      ensures ok == TakeUint(n, old(Left())).Some?
      ensures ok ==> TakeUint(n, old(Left())) == Some((v, Left()))
      ensures !ok ==> Left() == old(Left())
    {
      ok, v := false, 0;
      if off + n > |bytes| { return; }
      v := GetUint(bytes, off, n);
      assert bytes[off..][..n] == bytes[off..off + n];
      off := off + n;
      ok := true;
    }

    method U8() returns (ok: bool, v: byte)
      requires Valid()
      modifies this
      ensures Valid()
      ensures ok == (old(Left()) != [])
      ensures ok ==> v == old(Left())[0] && Left() == old(Left())[1..]
    {
      ok, v := false, 0;
      if off + 1 > |bytes| { return; }
      v := bytes[off];
      off := off + 1;
      ok := true;
    }

    method FieldBytes() returns (ok: bool, f: Bytes)
      requires Valid()
      modifies this
      ensures Valid()
      ensures ok == TakeField(old(Left())).Some?
      ensures ok ==> TakeField(old(Left())) == Some((f, Left()))
      ensures !ok ==> Left() == if |old(Left())| < 2 then old(Left()) else old(Left())[2..]
    {
      f := [];
      var n;
      ok, n := Uint(2);
      if !ok { return; }
      if off + n > |bytes| { return false, []; }
      f := bytes[off..off + n];
      assert bytes[off..][..n] == f;
      off := off + n;
    }

    method Done() returns (d: bool)
      requires Valid()
      ensures d == (Left() == [])
    {
      d := off == |bytes|;
    }
  }

  // ---- the encode and decode loops ------------------------------------------

  lemma {:induction false} PutRowsSnoc(rows: seq<Row>, r: Row, tagged: bool)
    ensures PutRows(rows + [r], tagged) == PutRows(rows, tagged) + PutRow(r, tagged)
  {
    hide PutRow;
    if rows == [] {
      assert (rows + [r])[1..] == [];
    } else {
      assert (rows + [r])[1..] == rows[1..] + [r];
      PutRowsSnoc(rows[1..], r, tagged);
      Assoc(PutRow(rows[0], tagged), PutRows(rows[1..], tagged), PutRow(r, tagged));
    }
  }

  method EncodeRow(out: Bytes, r: Row, tagged: bool) returns (o: Bytes)
    ensures o == out + PutRow(r, tagged)
  {
    hide Be;
    o := PutUint(out, 2, |r.key|);
    o := o + r.key;
    Assoc(out, Be(2, |r.key|), r.key);
    ghost var o1 := o;
    o := PutUint(o, 2, |r.text|);
    o := o + r.text;
    Assoc(o1, Be(2, |r.text|), r.text);
    ghost var o2 := o;
    if tagged { o := o + [r.tag]; }
    ghost var tag: Bytes := if tagged then [r.tag] else [];
    o := PutUint(o, 8, ToU64(r.time));
    Assoc(o2, tag, Be(8, ToU64(r.time)));
    Assoc(o1, Field(r.text), PutTail(r.tag, r.time, tagged));
    Assoc(out, Field(r.key), Field(r.text) + PutTail(r.tag, r.time, tagged));
  }

  /** encode_contacts, and the message and request loops of encode. */
  method EncodeList(out: Bytes, rows: seq<Row>, tagged: bool) returns (o: Bytes)
    ensures o == out + PutList(rows, tagged)
  {
    hide PutRow;
    o := PutUint(out, 4, |rows|);
    for i := 0 to |rows|
      invariant o == out + (Be(4, |rows|) + PutRows(rows[..i], tagged))
    {
      assert rows[..i + 1] == rows[..i] + [rows[i]];
      PutRowsSnoc(rows[..i], rows[i], tagged);
      o := EncodeRow(o, rows[i], tagged);
    }
    assert rows[..|rows|] == rows;
  }

  method EncodeDb(db: Db) returns (out: Bytes)
    ensures out == Encode(db)
  {
    hide PutList;
    out := [PAYLOAD_VERSION];
    out := EncodeList(out, ContactRows(db.contacts), true);
    out := EncodeList(out, MessageRows(db.messages), true);
    out := EncodeList(out, RequestRows(db.requests), false);
  }

  method DecodeRow(r: Reader, tagged: bool) returns (ok: bool, row: Row)
    requires r.Valid()
    modifies r
    ensures r.Valid()
    ensures ok == TakeRow(old(r.Left()), tagged).Some?
    ensures ok ==> TakeRow(old(r.Left()), tagged) == Some((row, r.Left()))
  {
    hide TakeField;
    hide TakeUint;
    row := Row([], [], 0, 0);
    var key, text, tag, v;
    ok, key := r.FieldBytes();
    if !ok { return; }
    ok, text := r.FieldBytes();
    if !ok { return; }
    ghost var b2 := r.Left();
    tag := 0;
    if tagged {
      ok, tag := r.U8();
      if !ok { return; }
    }
    ghost var b3 := r.Left();
    ok, v := r.Uint(8);
    if !ok { return; }
    BoundOfTake(8, b3);
    row := Row(key, text, tag, ToI64(v));
  }

  lemma BoundOfTake(n: nat, b: Bytes)
    requires n <= 8 && TakeUint(n, b).Some?
    ensures TakeUint(n, b).value.0 < TWO64
  {
    TimeFits(TakeUint(n, b).value.0, n, b[..n]);
  }

  /** What is left to decode, behind the rows already decoded. */
  function Behind(done: seq<Row>, t: Option<(seq<Row>, Bytes)>): Option<(seq<Row>, Bytes)>
  {
    match t
    case None => None
    case Some((rows, rest)) => Some((done + rows, rest))
  }

  lemma BehindStep(done: seq<Row>, n: nat, b: Bytes, tagged: bool)
    requires n > 0 && TakeRow(b, tagged).Some?
    ensures var (r, b1) := TakeRow(b, tagged).value;
            Behind(done, TakeRows(n, b, tagged)) == Behind(done + [r], TakeRows(n - 1, b1, tagged))
  {
    hide TakeRow;
    var (r, b1) := TakeRow(b, tagged).value;
    match TakeRows(n - 1, b1, tagged)
    case None =>
    case Some((rows, rest)) => assert done + ([r] + rows) == done + [r] + rows;
  }

  /** decode_contacts, and the message and request loops of decode. */
  method DecodeList(r: Reader, tagged: bool) returns (ok: bool, rows: seq<Row>)
    requires r.Valid()
    modifies r
    ensures r.Valid()
    ensures ok == TakeList(old(r.Left()), tagged).Some?
    ensures ok ==> TakeList(old(r.Left()), tagged) == Some((rows, r.Left()))
  {
    hide TakeRow;
    hide TakeUint;
    rows := [];
    var n;
    ok, n := r.Uint(4);
    if !ok { return; }
    ghost var b := r.Left();
    assert Behind([], TakeRows(n, b, tagged)) == TakeRows(n, b, tagged) by {
      match TakeRows(n, b, tagged)
      case None =>
      case Some((t, rest)) => assert [] + t == t;
    }
    var i := 0;
    while i < n
      invariant 0 <= i <= n && r.Valid()
      invariant Behind(rows, TakeRows(n - i, r.Left(), tagged)) == TakeRows(n, b, tagged)
    {
      ghost var here, done := r.Left(), rows;
      var row;
      ok, row := DecodeRow(r, tagged);
      if !ok { return; }
      BehindStep(done, n - i, here, tagged);
      rows := rows + [row];
      i := i + 1;
    }
    assert rows + [] == rows;
    ok := true;
  }

  method DecodeV2(r: Reader) returns (ok: bool, db: Db)
    requires r.Valid()
    modifies r
    ensures ok == DecodeLists(old(r.Left())).Some?
    ensures ok ==> DecodeLists(old(r.Left())) == Some(db)
  {
    hide TakeList;
    hide RowContacts;
    hide RowMessages;
    hide RowRequests;
    db := EMPTY;
    var cs, ms, qs;
    ok, cs := DecodeList(r, true);
    if !ok { return; }
    ok, ms := DecodeList(r, true);
    if !ok { return; }
    ok, qs := DecodeList(r, false);
    if !ok { return; }
    ok := r.Done();
    db := Db(RowContacts(cs), RowMessages(ms), RowRequests(qs));
  }

  method DecodeV1(r: Reader) returns (ok: bool, db: Db)
    requires r.Valid()
    modifies r
    ensures ok == DecodeLegacy(old(r.Left())).Some?
    ensures ok ==> DecodeLegacy(old(r.Left())) == Some(db)
  {
    hide TakeList;
    hide RowContacts;
    db := EMPTY;
    var cs;
    ok, cs := DecodeList(r, true);
    if !ok { return; }
    ok := r.Done();
    db := Db(RowContacts(cs), [], []);
  }

  method DecodeDb(blob: Bytes) returns (ok: bool, db: Db)
    ensures ok == Decode(blob).Some?
    ensures ok ==> Decode(blob) == Some(db)
  {
    hide DecodeLegacy;
    hide DecodeLists;
    var r := new Reader(blob);
    if |blob| > 0 && blob[0] == PAYLOAD_VERSION {
      var _, _ := r.U8();
      ok, db := DecodeV2(r);
    } else {
      ok, db := DecodeV1(r);
    }
  }

  // ---- the encrypted-file container -----------------------------------------

  const FILE_VERSION: byte := 1
  const SALT_BYTES: nat := 16
  const FILE_HEADER_SIZE: nat := 4 + 1 + SALT_BYTES

  /** "OMDB". */
  const DB_MAGIC: Bytes := [79, 77, 68, 66]

  function FileHeader(salt: Bytes): Bytes { DB_MAGIC + [FILE_VERSION] + salt }

  predicate ValidHeader(file: Bytes)
  {
    |file| >= FILE_HEADER_SIZE && file[..4] == DB_MAGIC && file[4] == FILE_VERSION
  }

  function ReadSalt(file: Bytes): Option<Bytes>
  {
    if ValidHeader(file) then Some(file[5..5 + SALT_BYTES]) else None
  }

  /** read_blob: the header is the associated data of what follows it. */
  function ReadBlob(c: Suite, file: Bytes, key: Bytes): Option<Bytes>
  {
    if ValidHeader(file) then c.open(key, file[FILE_HEADER_SIZE..], file[..FILE_HEADER_SIZE]) else None
  }

  /** What write_blob puts in the file, or None where it refuses to. */
  function BlobImage(c: Suite, salt: Bytes, key: Bytes, nonce: Bytes, plaintext: Bytes): Option<Bytes>
  {
    if |salt| != SALT_BYTES || |key| != SESSION_KEY_BYTES then None else
      var sealed := c.seal(key, nonce, plaintext, FileHeader(salt));
      if sealed == [] then None else Some(FileHeader(salt) + sealed)
  }

  /** A written file gives back its salt and, under the same key, its plaintext. */
  lemma BlobReadsBack(c: Suite, salt: Bytes, key: Bytes, nonce: Bytes, plaintext: Bytes)
    requires Correct(c) && |salt| == SALT_BYTES && |key| == SESSION_KEY_BYTES
    ensures var image := BlobImage(c, salt, key, nonce, plaintext);
            && image.Some?
            && ReadSalt(image.value) == Some(salt)
            && ReadBlob(c, image.value, key) == Some(plaintext)
  {
    var header := FileHeader(salt);
    var sealed := c.seal(key, nonce, plaintext, header);
    var file := header + sealed;
    assert file[..FILE_HEADER_SIZE] == header && file[FILE_HEADER_SIZE..] == sealed;
    assert file[..4] == DB_MAGIC;
    assert file[5..5 + SALT_BYTES] == salt;
  }
}
