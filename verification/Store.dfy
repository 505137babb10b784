/** The contact database: in-memory lists that are re-saved, encrypted, after
    every change. */
module Storage {
  import opened Octets
  import opened StoreCodec
  import opened Crypto
  import opened Blob

  // ---- the lists ------------------------------------------------------------

  function Find(cs: seq<Contact>, key: Bytes): (r: Option<Contact>)
    ensures r.Some? ==> r.value in cs && r.value.publicKey == key
    ensures r.None? ==> forall c :: c in cs ==> c.publicKey != key
  {
    if cs == [] then None
    else if cs[0].publicKey == key then Some(cs[0])
    else Find(cs[1..], key)
  }

  function TrustOf(db: Db, key: Bytes): Option<byte>
  {
    match Find(db.contacts, key)
    case None => None
    case Some(c) => Some(c.trust)
  }

  /** Replace the first contact with this key, or append. */
  function Upsert(cs: seq<Contact>, c: Contact): seq<Contact>
  {
    if cs == [] then [c]
    else if cs[0].publicKey == c.publicKey then [c] + cs[1..]
    else [cs[0]] + Upsert(cs[1..], c)
  }

  /** Upsert by position: i is the first contact with the key, or the end. */
  lemma {:induction false} UpsertAt(cs: seq<Contact>, c: Contact, i: nat)
    requires i <= |cs| && (i < |cs| ==> cs[i].publicKey == c.publicKey)
    requires forall j :: 0 <= j < i ==> cs[j].publicKey != c.publicKey
    ensures Upsert(cs, c) == if i < |cs| then cs[i := c] else cs + [c]
  {
    if i > 0 { UpsertAt(cs[1..], c, i - 1); }
  }

  predicate UniqueKeys(cs: seq<Contact>)
  {
    forall i, j :: 0 <= i < j < |cs| ==> cs[i].publicKey != cs[j].publicKey
  }

  lemma {:induction false} FindAfterUpsert(cs: seq<Contact>, c: Contact, key: Bytes)
    ensures Find(Upsert(cs, c), key) == if key == c.publicKey then Some(c) else Find(cs, key)
  {
    if cs == [] {
      assert Upsert(cs, c)[1..] == [];
    } else if cs[0].publicKey == c.publicKey {
      assert Upsert(cs, c)[1..] == cs[1..];
    } else {
      assert Upsert(cs, c)[1..] == Upsert(cs[1..], c);
      FindAfterUpsert(cs[1..], c, key);
    }
  }

  lemma {:induction false} UpsertKeepsKeysUnique(cs: seq<Contact>, c: Contact)
    requires UniqueKeys(cs)
    ensures UniqueKeys(Upsert(cs, c))
  {
    if cs != [] && cs[0].publicKey != c.publicKey {
      var rest := Upsert(cs[1..], c);
      UpsertKeepsKeysUnique(cs[1..], c);
      forall i | 0 <= i < |rest|
        ensures rest[i].publicKey != cs[0].publicKey
      {
        FindAfterUpsert(cs[1..], c, cs[0].publicKey);
      }
    }
  }

  /** What upsert does to the whole database. */
  function UpsertContact(db: Db, c: Contact): (r: Db)
    ensures Find(r.contacts, c.publicKey) == Some(c)
    ensures forall key: Bytes :: key != c.publicKey ==> Find(r.contacts, key) == Find(db.contacts, key)
    ensures UniqueKeys(db.contacts) ==> UniqueKeys(r.contacts)
    ensures r.messages == db.messages && r.requests == db.requests
  {
    UpsertFacts(db.contacts, c);
    db.(contacts := Upsert(db.contacts, c))
  }

  lemma UpsertFacts(cs: seq<Contact>, c: Contact)
    ensures forall key: Bytes :: Find(Upsert(cs, c), key) == if key == c.publicKey then Some(c) else Find(cs, key)
    ensures UniqueKeys(cs) ==> UniqueKeys(Upsert(cs, c))
  {
    forall key: Bytes
      ensures Find(Upsert(cs, c), key) == if key == c.publicKey then Some(c) else Find(cs, key)
    {
      FindAfterUpsert(cs, c, key);
    }
    if UniqueKeys(cs) { UpsertKeepsKeysUnique(cs, c); }
  }

  predicate HasRequest(qs: seq<Request>, peer: Bytes) { exists i :: 0 <= i < |qs| && qs[i].peer == peer }

  predicate UniquePeers(qs: seq<Request>)
  {
    forall i, j :: 0 <= i < j < |qs| ==> qs[i].peer != qs[j].peer
  }

  /** Increasing places in a list of n. */
  predicate Ascend(at: seq<nat>, n: nat)
  {
    (forall i, j :: 0 <= i < j < |at| ==> at[i] < at[j]) && forall i :: 0 <= i < |at| ==> at[i] < n
  }

  /** r is what stands at the places, and keep holds of it. */
  ghost predicate StandAt<T>(at: seq<nat>, r: seq<T>, s: seq<T>, keep: T -> bool)
  {
    |at| == |r| && forall i :: 0 <= i < |at| ==> at[i] < |s| && s[at[i]] == r[i] && keep(r[i])
  }

  /** r is s at the places `at`: increasing, and exactly those where keep holds. */
  ghost predicate Selects<T>(at: seq<nat>, r: seq<T>, s: seq<T>, keep: T -> bool)
  {
    Ascend(at, |s|) && StandAt(at, r, s, keep) && forall k :: 0 <= k < |s| && keep(s[k]) ==> k in at
  }

  ghost function Places<T>(s: seq<T>, keep: T -> bool): seq<nat>
  {
    if s == [] then [] else
      var n := |s| - 1;
      Places(s[..n], keep) + if keep(s[n]) then [n] else []
  }

  lemma {:induction false} PlacesAscend<T>(s: seq<T>, keep: T -> bool)
    ensures Ascend(Places(s, keep), |s|)
  {
    if s != [] {
      var n := |s| - 1;
      PlacesAscend(s[..n], keep);
      AscendSnoc(Places(s[..n], keep), n);
    }
  }

  lemma AscendSnoc(at: seq<nat>, n: nat)
    requires Ascend(at, n)
    ensures Ascend(at + [n], n + 1) && Ascend(at + [], n + 1)
  {
  }

  lemma {:induction false} PlacesCover<T>(s: seq<T>, keep: T -> bool, k: nat)
    requires k < |s| && keep(s[k])
    ensures k in Places(s, keep)
  {
    var n := |s| - 1;
    if k < n {
      PlacesCover(s[..n], keep, k);
    } else {
      assert Places(s, keep)[|Places(s[..n], keep)|] == n;
    }
  }

  lemma PlacesSelect<T>(r: seq<T>, s: seq<T>, keep: T -> bool)
    requires StandAt(Places(s, keep), r, s, keep)
    ensures Selects(Places(s, keep), r, s, keep)
  {
    PlacesAscend(s, keep);
    forall k | 0 <= k < |s| && keep(s[k])
      ensures k in Places(s, keep)
    {
      PlacesCover(s, keep, k);
    }
  }

  /** The items at the places, as the list grows at its end. */
  lemma ItemsSnoc<T>(r: seq<T>, s: seq<T>, keep: T -> bool)
    requires s != [] && StandAt(Places(s[..|s| - 1], keep), r, s[..|s| - 1], keep)
    ensures StandAt(Places(s, keep), r + if keep(s[|s| - 1]) then [s[|s| - 1]] else [], s, keep)
  {
    StandSnoc(Places(s[..|s| - 1], keep), r, s, keep);
  }

  lemma StandSnoc<T>(at: seq<nat>, r: seq<T>, s: seq<T>, keep: T -> bool)
    requires s != [] && StandAt(at, r, s[..|s| - 1], keep)
    ensures keep(s[|s| - 1]) ==> StandAt(at + [|s| - 1], r + [s[|s| - 1]], s, keep)
    ensures StandAt(at + [], r + [], s, keep)
  {
  }

  /** erase-remove_if: keep the requests of everyone else. */
  function Without(qs: seq<Request>, peer: Bytes): (r: seq<Request>)
    ensures |r| <= |qs|
    ensures |r| == |qs| ==> r == qs
  {
    if qs == [] then []
    else if qs[0].peer == peer then Without(qs[1..], peer)
    else [qs[0]] + Without(qs[1..], peer)
  }

  lemma {:induction false} WithoutKeepsOthers(qs: seq<Request>, peer: Bytes)
    ensures forall q :: q in Without(qs, peer) <==> q in qs && q.peer != peer
  {
    if qs != [] {
      WithoutKeepsOthers(qs[1..], peer);
      assert qs == [qs[0]] + qs[1..];
    }
  }

  lemma {:induction false} WithoutSnoc(qs: seq<Request>, q: Request, peer: Bytes)
    ensures Without(qs + [q], peer) == Without(qs, peer) + if q.peer == peer then [] else [q]
  {
    if qs == [] {
      assert (qs + [q])[1..] == [];
    } else {
      assert (qs + [q])[1..] == qs[1..] + [q];
      WithoutSnoc(qs[1..], q, peer);
    }
  }

  /** What is left are exactly the others' requests, in their order. */
  lemma {:induction false} WithoutSelects(qs: seq<Request>, peer: Bytes)
    ensures var keep := (q: Request) => q.peer != peer; Selects(Places(qs, keep), Without(qs, peer), qs, keep)
  {
    var keep := (q: Request) => q.peer != peer;
    if qs != [] {
      var n := |qs| - 1;
      WithoutSelects(qs[..n], peer);
      WithoutSnoc(qs[..n], qs[n], peer);
      assert qs == qs[..n] + [qs[n]];
      ItemsSnoc(Without(qs[..n], peer), qs, keep);
    }
    PlacesSelect(Without(qs, peer), qs, keep);
  }

  lemma {:induction false} WithoutKeepsPeersUnique(qs: seq<Request>, peer: Bytes)
    requires UniquePeers(qs)
    ensures UniquePeers(Without(qs, peer))
  {
    if qs != [] {
      WithoutKeepsPeersUnique(qs[1..], peer);
      WithoutKeepsOthers(qs[1..], peer);
    }
  }

  /** The messages exchanged with one peer, oldest first. */
  function ConversationWith(ms: seq<Message>, peer: Bytes): seq<Message>
  {
    if ms == [] then [] else
      var front, m := ConversationWith(ms[..|ms| - 1], peer), ms[|ms| - 1];
      if m.peer == peer then front + [m] else front
  }

  /** It is exactly the messages with that peer, in the order of the log. */
  lemma {:induction false} ConversationSelects(ms: seq<Message>, peer: Bytes)
    ensures var keep := (m: Message) => m.peer == peer;
            Selects(Places(ms, keep), ConversationWith(ms, peer), ms, keep)
  {
    var keep := (m: Message) => m.peer == peer;
    if ms != [] {
      ConversationSelects(ms[..|ms| - 1], peer);
      ItemsSnoc(ConversationWith(ms[..|ms| - 1], peer), ms, keep);
    }
    PlacesSelect(ConversationWith(ms, peer), ms, keep);
  }

  // ---- operations on a persistent store -------------------------------------

  datatype Op =
    | AddContact(contact: Contact)
    | UpsertOp(contact: Contact)
    | AppendMessage(message: Message)
    | AddRequest(request: Request)
    | RemoveRequest(peer: Bytes)

  function Apply(db: Db, op: Op): Db
  {
    match op
    case AddContact(c) => db.(contacts := db.contacts + [c])
    case UpsertOp(c) => UpsertContact(db, c)
    case AppendMessage(m) => db.(messages := db.messages + [m])
    case AddRequest(q) => if HasRequest(db.requests, q.peer) then db else db.(requests := db.requests + [q])
    case RemoveRequest(peer) => db.(requests := Without(db.requests, peer))
  }

  /** Whether the operation goes on to save: a duplicate request and the removal
      of an absent one return early. */
  predicate Saves(db: Db, op: Op)
  {
    match op
    case AddRequest(q) => !HasRequest(db.requests, q.peer)
    case RemoveRequest(peer) => |Without(db.requests, peer)| != |db.requests|
    case _ => true
  }

  /** The outside world's part in one write: the AEAD nonce, and whether the
      atomic file replacement goes through. */
  datatype Io = Io(nonce: Bytes, ok: bool)

  /** What stands on record for a write that was not attempted. */
  const NOT_TRIED: Io := Io([], false)

  datatype State = State(db: Db, persistent: bool, salt: Bytes, key: Bytes, file: Option<Bytes>)

  function Save(c: Suite, s: State, io: Io): (State, bool)
  {
    if !s.persistent then (s, false) else
      match BlobImage(c, s.salt, s.key, io.nonce, Encode(s.db))
      case None => (s, false)
      case Some(image) => if io.ok then (s.(file := Some(image)), true) else (s, false)
  }

  function Step(c: Suite, s: State, op: Op, io: Io): State
  {
    var s1 := s.(db := Apply(s.db, op));
    if s.persistent && Saves(s.db, op) then Save(c, s1, io).0 else s1
  }

  /** Load what a file holds for a passphrase; the salt and key come with it. */
  function Load(c: Suite, file: Bytes, passphrase: Bytes): Option<(Db, Bytes, Bytes)>
  {
    match ReadSalt(file)
    case None => None
    case Some(salt) =>
      var key := c.derive(passphrase, salt);
      if key == [] then None else
        match ReadBlob(c, file, key)
        case None => None
        case Some(plaintext) =>
          match Decode(plaintext)
          case None => None
          case Some(db) => Some((db, salt, key))
  }

  /** open: load an existing file, or create one from a fresh salt. */
  function Open(c: Suite, s: State, passphrase: Bytes, freshSalt: Bytes, io: Io): (State, bool)
  {
    match s.file
    case Some(file) =>
      (match Load(c, file, passphrase)
       case None => (s, false)
       case Some((db, salt, key)) => (State(db, true, salt, key, s.file), true))
    case None =>
      var key := c.derive(passphrase, freshSalt);
      if key == [] then (s, false) else Save(c, State(s.db, true, freshSalt, key, None), io)
  }

  /** Opening an existing file never changes it, and a failed attempt changes nothing. */
  lemma OpenSparesFile(c: Suite, s: State, passphrase: Bytes, salt: Bytes, io: Io)
    requires s.file.Some?
    ensures var (t, ok) := Open(c, s, passphrase, salt, io); t.file == s.file && (!ok ==> t == s)
  {
    hide Load;
  }

  /** One call of open, with any passphrase. */
  datatype Try = Try(passphrase: Bytes, salt: Bytes, io: Io)

  function AfterTries(c: Suite, s: State, tries: seq<Try>): State
  {
    if tries == [] then s else
      var t := tries[|tries| - 1];
      Open(c, AfterTries(c, s, tries[..|tries| - 1]), t.passphrase, t.salt, t.io).0
  }

  lemma {:induction false} TriesSpareFile(c: Suite, s: State, tries: seq<Try>)
    requires s.file.Some?
    ensures AfterTries(c, s, tries).file == s.file
  {
    hide Open;
    if tries != [] {
      var front, t := tries[..|tries| - 1], tries[|tries| - 1];
      TriesSpareFile(c, s, front);
      OpenSparesFile(c, AfterTries(c, s, front), t.passphrase, t.salt, t.io);
    }
  }

  /** A store that was never opened writes nothing. */
  lemma {:induction false} UnopenedWritesNothing(c: Suite, s: State, ws: seq<Write>)
    requires !s.persistent
    ensures After(c, s, ws) == s.(db := DbAfter(s.db, ws))
  {
    hide Apply;
    hide Saves;
    if ws != [] { UnopenedWritesNothing(c, s, ws[..|ws| - 1]); }
  }

  // ---- codec bounds as an invariant -----------------------------------------

  predicate ContactFits(c: Contact) { FitsField(c.publicKey) && FitsField(c.nickname) }
  predicate MessageFits(m: Message) { FitsField(m.peer) && FitsField(m.text) }
  predicate RequestFits(q: Request) { FitsField(q.peer) && FitsField(q.greeting) }

  predicate FieldsFit(db: Db)
  {
    && (forall c :: c in db.contacts ==> ContactFits(c))
    && (forall m :: m in db.messages ==> MessageFits(m))
    && (forall q :: q in db.requests ==> RequestFits(q))
  }

  predicate CountsFit(db: Db)
  {
    |db.contacts| < 0x1_0000_0000 && |db.messages| < 0x1_0000_0000 && |db.requests| < 0x1_0000_0000
  }

  lemma BoundsAreFieldsAndCounts(db: Db)
    ensures InBounds(db) <==> FieldsFit(db) && CountsFit(db)
  {
    var cs, ms, qs := ContactRows(db.contacts), MessageRows(db.messages), RequestRows(db.requests);
    if InBounds(db) {
      assert forall i :: 0 <= i < |cs| ==> RowFits(cs[i], true) && ContactFits(db.contacts[i]);
      assert forall i :: 0 <= i < |ms| ==> RowFits(ms[i], true) && MessageFits(db.messages[i]);
      assert forall i :: 0 <= i < |qs| ==> RowFits(qs[i], false) && RequestFits(db.requests[i]);
    }
    if FieldsFit(db) {
      assert forall i :: 0 <= i < |cs| ==> db.contacts[i] in db.contacts && RowFits(cs[i], true);
      assert forall i :: 0 <= i < |ms| ==> db.messages[i] in db.messages && RowFits(ms[i], true);
      assert forall i :: 0 <= i < |qs| ==> db.requests[i] in db.requests && RowFits(qs[i], false);
    }
  }

  predicate OpFits(db: Db, op: Op)
  {
    match op
    case AddContact(c) => ContactFits(c)
    case UpsertOp(c) => ContactFits(c)
    case AppendMessage(m) => MessageFits(m)
    case AddRequest(q) => HasRequest(db.requests, q.peer) || RequestFits(q)
    case RemoveRequest(_) => true
  }

  lemma {:induction false} UpsertContents(cs: seq<Contact>, c: Contact)
    ensures c in Upsert(cs, c) && |cs| <= |Upsert(cs, c)| <= |cs| + 1
    ensures forall d :: d in Upsert(cs, c) ==> d == c || d in cs
  {
    if cs != [] { UpsertContents(cs[1..], c); }
  }

  /** The later of two contacts with one key is all that is left. */
  lemma {:induction false} UpsertTwice(cs: seq<Contact>, c: Contact, d: Contact)
    requires c.publicKey == d.publicKey
    ensures Upsert(Upsert(cs, c), d) == Upsert(cs, d)
  {
    if cs != [] && cs[0].publicKey != c.publicKey {
      UpsertTwice(cs[1..], c, d);
      assert Upsert(cs, c)[1..] == Upsert(cs[1..], c);
    } else if cs != [] {
      assert Upsert(cs, c)[1..] == cs[1..];
    }
  }

  /** Only the operation's own argument can make a field oversized. */
  lemma OpKeepsFieldsFit(db: Db, op: Op)
    requires FieldsFit(db)
    ensures FieldsFit(Apply(db, op)) <==> OpFits(db, op)
  {
    match op
    case AddContact(c) => assert c in Apply(db, op).contacts;
    case UpsertOp(c) => UpsertContents(db.contacts, c);
    case AppendMessage(m) => assert m in Apply(db, op).messages;
    case AddRequest(q) => if !HasRequest(db.requests, q.peer) { assert q in Apply(db, op).requests; }
    case RemoveRequest(peer) => WithoutKeepsOthers(db.requests, peer);
  }

  // ---- durability -----------------------------------------------------------

  datatype Write = Write(op: Op, io: Io)

  function DbAfter(db: Db, ws: seq<Write>): Db
  {
    if ws == [] then db else Apply(DbAfter(db, ws[..|ws| - 1]), ws[|ws| - 1].op)
  }

  function After(c: Suite, s: State, ws: seq<Write>): State
  {
    if ws == [] then s else
      var w := ws[|ws| - 1];
      Step(c, After(c, s, ws[..|ws| - 1]), w.op, w.io)
  }

  /** The database as it stood after the last write that went through. */
  function LastSaved(db: Db, ws: seq<Write>): Db
  {
    if ws == [] then db else
      var front, w := ws[..|ws| - 1], ws[|ws| - 1];
      if Saves(DbAfter(db, front), w.op) && w.io.ok then DbAfter(db, ws) else LastSaved(db, front)
  }

  /** Write i was attempted and went through. */
  predicate WentThrough(db: Db, ws: seq<Write>, i: nat)
    requires i < |ws|
  {
    Saves(DbAfter(db, ws[..i]), ws[i].op) && ws[i].io.ok
  }

  /** The last save that was attempted, if any was, went through. */
  predicate UpToDate(db: Db, ws: seq<Write>)
  {
    ws == [] ||
    var front, w := ws[..|ws| - 1], ws[|ws| - 1];
    if Saves(DbAfter(db, front), w.op) then w.io.ok else UpToDate(db, front)
  }

  /** No save that was attempted failed. */
  predicate NoSaveFailed(db: Db, ws: seq<Write>)
  {
    forall i :: 0 <= i < |ws| && Saves(DbAfter(db, ws[..i]), ws[i].op) ==> ws[i].io.ok
  }

  lemma UpToDateWhenNoneFailed(db: Db, ws: seq<Write>)
    requires NoSaveFailed(db, ws)
    ensures UpToDate(db, ws)
  {
    if ws != [] {
      var front := ws[..|ws| - 1];
      assert forall i :: 0 <= i < |front| ==> front[..i] == ws[..i];
      UpToDateWhenNoneFailed(db, front);
    }
  }

  /** Persistent, with the key that the passphrase and the salt give. */
  ghost predicate Keyed(c: Suite, s: State, passphrase: Bytes)
  {
    s.persistent && |s.salt| == SALT_BYTES && s.key != [] && s.key == c.derive(passphrase, s.salt)
  }

  /** A store that has been opened: its file loads, with this passphrase, to what
      it holds. */
  ghost predicate Opened(c: Suite, s: State, passphrase: Bytes)
  {
    Keyed(c, s, passphrase) && s.file.Some? && Load(c, s.file.value, passphrase) == Some((s.db, s.salt, s.key))
  }

  /** Persistent, and its file, if it has one, loads to what it holds.  A store whose
      creating save failed has none yet. */
  ghost predicate Live(c: Suite, s: State, passphrase: Bytes)
  {
    Keyed(c, s, passphrase) && (s.file.Some? ==> Opened(c, s, passphrase))
  }

  /** The store's file has its salt, and loads to saved exactly when saved is in
      codec bounds. */
  ghost predicate Backed(c: Suite, s: State, passphrase: Bytes, saved: Db)
  {
    && Keyed(c, s, passphrase) && s.file.Some? && ReadSalt(s.file.value) == Some(s.salt)
    && (Load(c, s.file.value, passphrase) == Some((saved, s.salt, s.key)) <==> InBounds(saved))
  }

  /** One successful save reads back exactly when the lists are in codec bounds:
      an oversized field is saved without complaint and lost. */
  lemma SavedFileLoads(c: Suite, s: State, io: Io, passphrase: Bytes)
    requires Correct(c) && Keyed(c, s, passphrase) && io.ok
    ensures Save(c, s, io).1 && Save(c, s, io).0 == s.(file := Save(c, s, io).0.file)
    ensures Backed(c, Save(c, s, io).0, passphrase, s.db)
    ensures Load(c, Save(c, s, io).0.file.value, passphrase) ==
            match Decode(Encode(s.db)) case None => None case Some(db) => Some((db, s.salt, s.key))
  {
    BlobReadsBack(c, s.salt, s.key, io.nonce, Encode(s.db));
    StoreRoundTrip(s.db);
  }

  lemma OpenedIsLive(c: Suite, s: State, passphrase: Bytes)
    requires Opened(c, s, passphrase)
    ensures Live(c, s, passphrase) && s.file.Some?
  {
  }

  lemma OpenedIsBacked(c: Suite, s: State, passphrase: Bytes)
    requires Opened(c, s, passphrase)
    ensures InBounds(s.db) && Backed(c, s, passphrase, s.db)
  {
    DecodedIsInBounds(ReadBlob(c, s.file.value, s.key).value);
  }

  /** A successful open leaves the store opened, unless it has just written lists
      that are out of bounds to a new file. */
  lemma OpenEstablishes(c: Suite, s: State, passphrase: Bytes, freshSalt: Bytes, io: Io)
    requires Correct(c) && Open(c, s, passphrase, freshSalt, io).1
    ensures Opened(c, Open(c, s, passphrase, freshSalt, io).0, passphrase) <==> s.file.Some? || InBounds(s.db)
  {
    if s.file.None? {
      SavedFileLoads(c, State(s.db, true, freshSalt, c.derive(passphrase, freshSalt), None), io, passphrase);
    }
  }

  /** A store whose creating save failed is live all the same: it has no file, and will
      try again with its next save. */
  lemma FailedCreationIsLive(c: Suite, s: State, passphrase: Bytes, freshSalt: Bytes, io: Io)
    requires Correct(c) && s.file.None? && |freshSalt| == SALT_BYTES && c.derive(passphrase, freshSalt) != [] && !io.ok
    ensures var (t, ok) := Open(c, s, passphrase, freshSalt, io);
            !ok && Live(c, t, passphrase) && t.file.None? && t.db == s.db
  {
  }

  lemma SkippedSavesChangeNothing(db: Db, op: Op)
    requires !Saves(db, op)
    ensures Apply(db, op) == db
  {
  }

  lemma StepKeepsBacked(c: Suite, s: State, op: Op, io: Io, passphrase: Bytes, saved: Db)
    requires Correct(c) && Keyed(c, s, passphrase) && (s.file.Some? ==> Backed(c, s, passphrase, saved))
    ensures var t := Step(c, s, op, io);
            && t == s.(db := Apply(s.db, op), file := t.file)
            && (t.file.Some? <==> s.file.Some? || (Saves(s.db, op) && io.ok))
            && (t.file.Some? ==> Backed(c, t, passphrase, if Saves(s.db, op) && io.ok then t.db else saved))
  {
    hide Apply;
    hide Saves;
    hide Load;
    hide Encode;
    hide InBounds;
    if io.ok { SavedFileLoads(c, s.(db := Apply(s.db, op)), io, passphrase); }
  }

  /** The state component by component: memory is the fold of the operations; there
      is a file as soon as one write has gone through; and it is backed by the last
      that did. */
  lemma {:induction false} FileIsLastSaved(c: Suite, s: State, passphrase: Bytes, ws: seq<Write>)
    requires Correct(c) && Live(c, s, passphrase)
    ensures var t := After(c, s, ws);
            && t == s.(db := DbAfter(s.db, ws), file := t.file)
            && (t.file.Some? <==> s.file.Some? || exists i :: 0 <= i < |ws| && WentThrough(s.db, ws, i))
            && (t.file.Some? ==> Backed(c, t, passphrase, LastSaved(s.db, ws)))
  {
    hide Apply;
    hide Saves;
    hide Backed;
    hide Step;
    if ws == [] {
      if s.file.Some? { OpenedIsBacked(c, s, passphrase); }
    } else {
      var front, w := ws[..|ws| - 1], ws[|ws| - 1];
      FileIsLastSaved(c, s, passphrase, front);
      StepKeepsBacked(c, After(c, s, front), w.op, w.io, passphrase, LastSaved(s.db, front));
      assert forall i :: 0 <= i < |front| ==> front[..i] == ws[..i];
      assert forall i :: 0 <= i < |front| ==> (WentThrough(s.db, front, i) <==> WentThrough(s.db, ws, i));
      assert WentThrough(s.db, ws, |front|) <==> Saves(DbAfter(s.db, front), w.op) && w.io.ok;
    }
  }

  /** What was last saved is a past database, and the current one whenever the last
      attempted save went through: a save that is skipped had nothing to change. */
  lemma {:induction false} LastSavedIsPast(db: Db, ws: seq<Write>)
    ensures exists k :: 0 <= k <= |ws| && LastSaved(db, ws) == DbAfter(db, ws[..k])
    ensures UpToDate(db, ws) ==> LastSaved(db, ws) == DbAfter(db, ws)
  {
    hide Apply;
    hide Saves;
    if ws == [] {
      assert ws[..0] == ws;
    } else {
      var front, w := ws[..|ws| - 1], ws[|ws| - 1];
      LastSavedIsPast(db, front);
      assert ws[..|ws|] == ws;
      if !Saves(DbAfter(db, front), w.op) { SkippedSavesChangeNothing(DbAfter(db, front), w.op); }
      var k :| 0 <= k <= |front| && LastSaved(db, front) == DbAfter(db, front[..k]);
      assert front[..k] == ws[..k];
      if LastSaved(db, ws) == LastSaved(db, front) {
        assert LastSaved(db, ws) == DbAfter(db, ws[..k]);
      } else {
        assert LastSaved(db, ws) == DbAfter(db, ws[..|ws|]);
      }
    }
  }

  /** Durability.  After any operations, with any of their writes failing, the file,
      if any write ever made one, re-opens to the database of the last successful write
      exactly when that database is in codec bounds.  It is a past one; it is the
      current one if the last attempted save went through, and so if none failed. */
  lemma Durability(c: Suite, s: State, passphrase: Bytes, ws: seq<Write>, blank: State, salt2: Bytes, io2: Io)
    requires Correct(c) && Live(c, s, passphrase) && blank.file == After(c, s, ws).file
    ensures blank.file.Some? <==> s.file.Some? || exists i :: 0 <= i < |ws| && WentThrough(s.db, ws, i)
    ensures var (t, ok) := Open(c, blank, passphrase, salt2, io2);
            var saved := LastSaved(s.db, ws);
            && (blank.file.Some? ==> (ok && t.db == saved <==> InBounds(saved)))
            && (blank.file.Some? && InBounds(saved) ==> Opened(c, t, passphrase))
            && (exists k :: 0 <= k <= |ws| && saved == DbAfter(s.db, ws[..k]))
            && (UpToDate(s.db, ws) || NoSaveFailed(s.db, ws) ==> saved == After(c, s, ws).db)
  {
    hide After;
    hide DbAfter;
    hide LastSaved;
    hide UpToDate;
    hide NoSaveFailed;
    hide WentThrough;
    hide InBounds;
    hide Decode;
    FileIsLastSaved(c, s, passphrase, ws);
    LastSavedIsPast(s.db, ws);
    if NoSaveFailed(s.db, ws) { UpToDateWhenNoneFailed(s.db, ws); }
  }

  /** However often opening was tried before, with whatever passphrase, the right one
      still gives what was last saved. */
  lemma DurabilityAfterTries(c: Suite, s: State, passphrase: Bytes, ws: seq<Write>, blank: State, tries: seq<Try>,
                             salt2: Bytes, io2: Io)
    requires Correct(c) && Live(c, s, passphrase) && blank.file == After(c, s, ws).file && blank.file.Some?
    ensures var (t, ok) := Open(c, AfterTries(c, blank, tries), passphrase, salt2, io2);
            ok && t.db == LastSaved(s.db, ws) <==> InBounds(LastSaved(s.db, ws))
  {
    hide After;
    hide Open;
    hide LastSaved;
    hide InBounds;
    hide Live;
    hide Correct;
    TriesSpareFile(c, blank, tries);
    Durability(c, s, passphrase, ws, AfterTries(c, blank, tries), salt2, io2);
  }

  /** Ideal authenticated encryption: whatever opens was sealed so. */
  ghost predicate Authentic(c: Suite)
  {
    forall k: Bytes, z: Bytes, a: Bytes :: c.open(k, z, a).Some? ==>
      exists n: Bytes :: z == c.seal(k, n, c.open(k, z, a).value, a)
  }

  /** Then whatever loads was written by a store with that salt and key: magic, version
      and layout are all checked. */
  lemma LoadedWasWritten(c: Suite, file: Bytes, passphrase: Bytes)
    requires Correct(c) && Authentic(c) && Load(c, file, passphrase).Some?
    ensures var (db, salt, key) := Load(c, file, passphrase).value;
            && key == c.derive(passphrase, salt)
            && exists nonce: Bytes, plaintext: Bytes ::
                 BlobImage(c, salt, key, nonce, plaintext) == Some(file) && Decode(plaintext) == Some(db)
  {
    hide Decode;
    var (db, salt, key) := Load(c, file, passphrase).value;
    var header, body := file[..FILE_HEADER_SIZE], file[FILE_HEADER_SIZE..];
    assert header == FileHeader(salt) by {
      assert header[..4] == DB_MAGIC && header[4] == FILE_VERSION && header[5..] == salt;
      assert header == header[..4] + [header[4]] + header[5..];
    }
    assert file == header + body;
    var plaintext := c.open(key, body, header).value;
    var nonce: Bytes :| body == c.seal(key, nonce, plaintext, header);
    assert BlobImage(c, salt, key, nonce, plaintext) == Some(file);
  }

  /** What that excludes: one oversized nickname, saved without an error, and the file
      no longer gives the store back; and what it lets in: shortening the nickname
      again heals the file. */
  lemma OversizedNicknameIsLost(c: Suite, s: State, passphrase: Bytes, peer: Bytes, nonce: Bytes)
    requires Correct(c) && Opened(c, s, passphrase) && FitsField(peer) && |s.db.contacts| < 0xFFFF_FFFF
    ensures var long := Write(UpsertOp(Contact(peer, seq(0x1_0000, _ => 0), PENDING, 0)), Io(nonce, true));
            var short := Write(UpsertOp(Contact(peer, [], PENDING, 0)), Io(nonce, true));
            var t, u := After(c, s, [long]), After(c, s, [long, short]);
            && t.file.Some? && Load(c, t.file.value, passphrase) != Some((t.db, t.salt, t.key))
            && u.file.Some? && Load(c, u.file.value, passphrase) == Some((u.db, u.salt, u.key))
  {
    var long := Write(UpsertOp(Contact(peer, seq(0x1_0000, _ => 0), PENDING, 0)), Io(nonce, true));
    var short := Write(UpsertOp(Contact(peer, [], PENDING, 0)), Io(nonce, true));
    hide InBounds;
    hide Load;
    hide Correct;
    hide Saves;
    TwoWrites(s.db, long, short);
    FileIsLastSaved(c, s, passphrase, [long]);
    FileIsLastSaved(c, s, passphrase, [long, short]);
    OpenedIsBacked(c, s, passphrase);
    Healing(s.db, long.op.contact, short.op.contact);
  }

  lemma Healing(db: Db, long: Contact, short: Contact)
    requires InBounds(db) && |db.contacts| < 0xFFFF_FFFF
    requires long.publicKey == short.publicKey && !ContactFits(long) && ContactFits(short)
    ensures !InBounds(UpsertContact(db, long)) && InBounds(UpsertContact(UpsertContact(db, long), short))
  {
    hide InBounds;
    hide FieldsFit;
    UpsertTwice(db.contacts, long, short);
    UpsertContents(db.contacts, short);
    BoundsAreFieldsAndCounts(db);
    BoundsAreFieldsAndCounts(UpsertContact(db, long));
    BoundsAreFieldsAndCounts(UpsertContact(db, short));
    OpKeepsFieldsFit(db, UpsertOp(long));
    OpKeepsFieldsFit(db, UpsertOp(short));
  }

  lemma TwoWrites(db: Db, w: Write, v: Write)
    ensures DbAfter(db, [w]) == Apply(db, w.op) && DbAfter(db, [w, v]) == Apply(Apply(db, w.op), v.op)
    ensures w.op.UpsertOp? && w.io.ok ==> LastSaved(db, [w]) == DbAfter(db, [w])
    ensures v.op.UpsertOp? && v.io.ok ==> LastSaved(db, [w, v]) == DbAfter(db, [w, v])
  {
    hide Apply;
    assert [w][..0] == [] && [w, v][..1] == [w];
  }
}
