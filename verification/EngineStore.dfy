/** The engine together with the store it saves to: which store operations each
    step makes, and what a new process finds when it opens the file again. */
module EngineStore {
  import opened Octets
  import opened HexKeys
  import opened Wire
  import opened EndpointText
  import opened StoreCodec
  import opened Crypto
  import opened EngineModel
  import opened EngineLedger
  import opened EngineSessions
  import opened EngineTrust
  import Sessions
  import Storage

  // ---- the store operations of a step ---------------------------------------

  /** The operations an effect makes, in order, on the database it finds. */
  function OpsOf(db: Db, f: Effect): seq<Storage.Op>
  {
    match f
    case Trust(peer) => [Storage.UpsertOp(Trusted(db, peer, ACCEPTED))]
    case Name(peer, name) => [Storage.UpsertOp(Named(db, peer, name))]
    case Ask(peer) => [Storage.UpsertOp(Trusted(db, peer, PENDING))]
    case Answer(peer, accept) =>
      [Storage.RemoveRequest(peer), Storage.UpsertOp(Trusted(db, peer, if accept then ACCEPTED else REJECTED))]
    case Log(m) => [Storage.AppendMessage(m)]
    case Surface(peer, greeting, now) =>
      [Storage.UpsertOp(Trusted(db, peer, PENDING))] + OpsOfGreeting(SetTrust(db, peer, PENDING), peer, greeting, now)
    case Respond(peer, accepted) => [Storage.UpsertOp(Trusted(db, peer, if accepted then ACCEPTED else REJECTED))]
    case _ => []
  }

  function OpsOfGreeting(db: Db, peer: Bytes, greeting: Bytes, now: i64): seq<Storage.Op>
  {
    (if greeting == [] then [] else [Storage.UpsertOp(Named(db, peer, greeting))]) +
    [Storage.AddRequest(Request(peer, greeting, now))]
  }

  function Fold(db: Db, ops: seq<Storage.Op>): Db
    decreases |ops|
  {
    if ops == [] then db else Fold(Storage.Apply(db, ops[0]), ops[1..])
  }

  lemma FoldOne(db: Db, op: Storage.Op)
    ensures Fold(db, [op]) == Storage.Apply(db, op)
  {
    assert [op][1..] == [];
  }

  lemma FoldCons(db: Db, op: Storage.Op, ops: seq<Storage.Op>)
    ensures Fold(db, [op] + ops) == Fold(Storage.Apply(db, op), ops)
  {
    assert ([op] + ops)[1..] == ops;
  }

  /** An effect changes the database by its operations and in no other way. */
  lemma EffectIsItsOps(l: Ledger, f: Effect)
    ensures EngineLedger.Apply(l, f).db == Fold(l.db, OpsOf(l.db, f))
  {
    hide Fold;
    hide Storage.UpsertContact;
    hide Storage.HasRequest;
    hide Hex;
    var ops := OpsOf(l.db, f);
    match f
    case Surface(peer, greeting, now) =>
      var db1 := SetTrust(l.db, peer, PENDING);
      var last := Storage.AddRequest(Request(peer, greeting, now));
      FoldCons(l.db, ops[0], OpsOfGreeting(db1, peer, greeting, now));
      if greeting == [] {
        assert OpsOfGreeting(db1, peer, greeting, now) == [last];
        FoldOne(db1, last);
      } else {
        FoldCons(db1, Storage.UpsertOp(Named(db1, peer, greeting)), [last]);
        FoldOne(Rename(db1, peer, greeting), last);
      }
    case Answer(peer, _) =>
      assert ops == [ops[0]] + [ops[1]];
      FoldCons(l.db, ops[0], [ops[1]]);
      FoldOne(Storage.Apply(l.db, ops[0]), ops[1]);
    case Nothing => FoldNil(l.db);
    case Reboot => FoldNil(l.db);
    case _ => FoldOne(l.db, ops[0]);
  }

  lemma FoldNil(db: Db)
    ensures Fold(db, []) == db
  {
  }

  lemma NoOps(db: Db)
    ensures OpsOf(db, Nothing) == []
  {
  }

  /** The operations of a step. */
  function StepOps(c: Suite, e: Engine, x: Input): seq<Storage.Op> { OpsOf(e.db, EffectOf(c, e, x)) }

  // Each entry point with its operations, for the object that makes them.

  lemma AddPeerOps(c: Suite, e: Engine, peer: Bytes, endpoint: Endpoint)
    ensures var x := AddPeer(peer, endpoint);
            && EngineModel.Step(c, e, x) == DoAddPeer(c, e, peer, endpoint)
            && StepOps(c, e, x) ==
                 if HasSession(c, e, peer) then [Storage.UpsertOp(Trusted(e.db, peer, ACCEPTED))] else []
  {
    hide DoAddPeer;
    hide HasSession;
    hide Trusted;
  }

  lemma SetNicknameOps(c: Suite, e: Engine, peer: Bytes, name: Bytes)
    ensures var x := SetNickname(peer, name);
            && EngineModel.Step(c, e, x).st == e.(db := Rename(e.db, peer, name))
            && StepOps(c, e, x) == [Storage.UpsertOp(Named(e.db, peer, name))]
  {
    hide Rename;
    hide Named;
  }

  lemma SendContactRequestOps(c: Suite, e: Engine, peer: Bytes, endpoint: Endpoint, greeting: Bytes, nonce: Bytes,
                              ok: bool)
    ensures var x := SendContactRequest(peer, endpoint, greeting, nonce, ok);
            && EngineModel.Step(c, e, x) == DoSendContactRequest(c, e, peer, endpoint, greeting, nonce, ok)
            && StepOps(c, e, x) ==
                 if Storage.TrustOf(e.db, peer) != Some(ACCEPTED) && HasSession(c, e, peer)
                 then [Storage.UpsertOp(Trusted(e.db, peer, PENDING))] else []
  {
    hide DoSendContactRequest;
    hide HasSession;
    hide Trusted;
    hide Storage.TrustOf;
  }

  lemma AnswerOps(c: Suite, e: Engine, peer: Bytes, accept: bool, nonce: Bytes, ok: bool)
    ensures var x := if accept then AcceptContact(peer, nonce, ok) else RejectContact(peer, nonce, ok);
            var trust, answer := if accept then ACCEPTED else REJECTED, if accept then ACCEPT else REJECT;
            && EngineModel.Step(c, e, x) == DoAnswer(c, e, peer, trust, answer, nonce, ok)
            && StepOps(c, e, x) ==
                 if Hex(peer) in e.incoming && HasSession(c, e, peer)
                 then [Storage.RemoveRequest(peer)] + [Storage.UpsertOp(Trusted(e.db, peer, trust))] else []
  {
    hide DoAnswer;
    hide HasSession;
    hide Hex;
    hide Trusted;
  }

  lemma SendOps(c: Suite, e: Engine, peer: Bytes, text: Bytes, nonce: Bytes, ok: bool, now: i64)
    ensures var x := Send(peer, text, nonce, ok, now);
            var o := DoSend(c, e, peer, text, nonce, ok, now);
            && EngineModel.Step(c, e, x) == o
            && StepOps(c, e, x) == if o.ret then [Storage.AppendMessage(Message(peer, text, true, now))] else []
  {
    hide DoSend;
  }

  lemma PollOps(c: Suite, e: Engine, x: Input)
    requires x.Poll?
    ensures EngineModel.Step(c, e, x) == DoPoll(c, e, x.datagram, x.now, x.clock)
    ensures StepOps(c, e, x) ==
              match Polled(x)
              case None => []
              case Some(p) =>
                if p.kind == HELLO || p.kind == CONNECT then [] else OpsOf(e.db, ReceiptEffect(c, e, p, x.now))
  {
    hide DoPoll;
    hide ReceiptEffect;
  }

  lemma TrustedAfterRemoval(db: Db, peer: Bytes, trust: byte)
    ensures Trusted(db.(requests := Storage.Without(db.requests, peer)), peer, trust) == Trusted(db, peer, trust)
  {
  }

  /** A step's database is the fold of the store operations it makes. */
  lemma StepIsItsOps(c: Suite, e: Engine, x: Input)
    ensures EngineModel.Step(c, e, x).st.db == Fold(e.db, StepOps(c, e, x))
  {
    hide EngineModel.Step;
    hide EffectOf;
    hide OpsOf;
    hide EngineLedger.Apply;
    StepHasItsEffect(c, e, x);
    EffectIsItsOps(LedgerOf(e), EffectOf(c, e, x));
  }

  // ---- engine and store -----------------------------------------------------

  /** An engine, its store when that was opened, and the writes made to it since. */
  datatype World = World(e: Engine, start: Storage.State, ws: seq<Storage.Write>)

  /** The writes grew by one per operation, each failing or not as it will. */
  ghost predicate Wrote(before: seq<Storage.Write>, after: seq<Storage.Write>, ops: seq<Storage.Op>)
  {
    && |after| == |before| + |ops| && before == after[..|before|]
    && forall i :: 0 <= i < |ops| ==> after[|before| + i].op == ops[i]
  }

  lemma WroteOne(ws: seq<Storage.Write>, vs: seq<Storage.Write>, op: Storage.Op)
    requires |vs| == |ws| + 1 && vs[..|ws|] == ws && vs[|ws|].op == op
    ensures Wrote(ws, vs, [op])
  {
  }

  lemma WroteNothing(ws: seq<Storage.Write>)
    ensures Wrote(ws, ws, [])
  {
  }

  lemma WroteBoth(ws: seq<Storage.Write>, us: seq<Storage.Write>, vs: seq<Storage.Write>, ops: seq<Storage.Op>,
                  more: seq<Storage.Op>)
    requires Wrote(ws, us, ops) && Wrote(us, vs, more)
    ensures Wrote(ws, vs, ops + more)
  {
    assert vs[..|ws|] == us[..|ws|];
    forall i | 0 <= i < |ops + more|
      ensures vs[|ws| + i].op == (ops + more)[i]
    {
      if i < |ops| {
        assert vs[|ws| + i] == us[|ws| + i];
      } else {
        assert vs[|us| + (i - |ops|)].op == more[i - |ops|];
      }
    }
  }

  /** A call of an entry point: the engine steps, the store records its operations. */
  ghost predicate Turned(c: Suite, w: World, x: Input, v: World)
  {
    v.e == EngineModel.Step(c, w.e, x).st && v.start == w.start && Wrote(w.ws, v.ws, StepOps(c, w.e, x))
  }

  /** A new process: whatever the file gives when opened is what the engine starts
      from. */
  ghost predicate Reopened(c: Suite, passphrase: Bytes, w: World, v: World)
  {
    var blank := Storage.State(EMPTY, false, [], [], Storage.After(c, w.start, w.ws).file);
    var (t, ok) := Storage.Open(c, blank, passphrase, [], Storage.Io([], false));
    ok && v == World(Boot(w.e.self, w.e.secret, t.db), t, [])
  }

  ghost predicate IsTurn(c: Suite, passphrase: Bytes, w: World, x: Input, v: World)
  {
    if x.Restart? then Reopened(c, passphrase, w, v) else Turned(c, w, x, v)
  }

  /** What the file was last successfully given. */
  ghost function Saved(w: World): Db { Storage.LastSaved(w.start.db, w.ws) }

  /** The last save the store attempted, if any, went through. */
  predicate Current(w: World) { Storage.UpToDate(w.start.db, w.ws) }

  // ---- every database on the way --------------------------------------------

  /** Sound books by themselves, and fields that fit when callers stick to sizes
      that fit. */
  ghost predicate Good(db: Db, sized: bool)
  {
    Books(db, RequestKeys(db.requests)) && (sized ==> Storage.FieldsFit(db))
  }

  /** Every database since the store was opened, between two writes of one call
      included, was good. */
  ghost predicate Kept(db: Db, ws: seq<Storage.Write>, sized: bool)
  {
    forall k :: 0 <= k <= |ws| ==> Good(Storage.DbAfter(db, ws[..k]), sized)
  }

  /** What makes an operation safe: a request is only stored for a contact. */
  ghost predicate OpSafe(db: Db, op: Storage.Op, sized: bool)
  {
    && !op.AddContact? && (sized ==> Storage.OpFits(db, op))
    && (op.AddRequest? ==> Storage.Find(db.contacts, op.request.peer).Some?)
  }

  ghost predicate AllSafe(db: Db, ops: seq<Storage.Op>, sized: bool)
    decreases |ops|
  {
    ops != [] ==> OpSafe(db, ops[0], sized) && AllSafe(Storage.Apply(db, ops[0]), ops[1..], sized)
  }

  lemma SafeOpKeepsGood(db: Db, op: Storage.Op, sized: bool)
    requires Good(db, sized) && OpSafe(db, op, sized)
    ensures Good(Storage.Apply(db, op), sized)
  {
    hide Books;
    hide Storage.FieldsFit;
    hide Storage.OpFits;
    hide RequestKeys;
    if sized { Storage.OpKeepsFieldsFit(db, op); }
    var keys := RequestKeys(db.requests);
    match op
    case UpsertOp(contact) => UpsertKeepsBooks(db, keys, contact);
    case AppendMessage(m) => MessageKeepsBooks(db, keys, m);
    case AddRequest(q) => AddedRequestKeepsBooks(db, q);
    case RemoveRequest(peer) =>
      AnswerKeepsBooks(db, keys, peer);
      BooksFixKeys(Storage.Apply(db, op), keys - {Hex(peer)});
  }

  lemma BooksFixKeys(db: Db, keys: set<string>)
    requires Books(db, keys)
    ensures keys == RequestKeys(db.requests)
  {
  }

  lemma MessageKeepsBooks(db: Db, keys: set<string>, m: Message)
    requires Books(db, keys)
    ensures Books(db.(messages := db.messages + [m]), keys)
  {
  }

  lemma AddedRequestKeepsBooks(db: Db, q: Request)
    requires Books(db, RequestKeys(db.requests)) && Storage.Find(db.contacts, q.peer).Some?
    ensures var after := Storage.Apply(db, Storage.AddRequest(q)); Books(after, RequestKeys(after.requests))
  {
    if !Storage.HasRequest(db.requests, q.peer) {
      if Hex(q.peer) in RequestKeys(db.requests) {
        var r :| r in db.requests && Hex(r.peer) == Hex(q.peer);
        HexInjective(r.peer, q.peer);
      }
      RequestKeepsBooks(db, RequestKeys(db.requests), q);
    }
  }

  /** Writing safe operations keeps every database on the way good. */
  lemma {:induction false} SafeWritesKeep(db: Db, ws: seq<Storage.Write>, vs: seq<Storage.Write>, ops: seq<Storage.Op>,
                                          sized: bool)
    requires Kept(db, ws, sized) && Wrote(ws, vs, ops) && AllSafe(Storage.DbAfter(db, ws), ops, sized)
    ensures Kept(db, vs, sized) && Storage.DbAfter(db, vs) == Fold(Storage.DbAfter(db, ws), ops)
    decreases |ops|
  {
    hide Good;
    hide OpSafe;
    hide Storage.Apply;
    assert ws[..|ws|] == ws;
    if ops == [] {
      assert vs == ws;
    } else {
      var mid := vs[..|ws| + 1];
      assert mid[..|ws|] == ws;
      SafeOpKeepsGood(Storage.DbAfter(db, ws), ops[0], sized);
      forall k | 0 <= k <= |mid|
        ensures Good(Storage.DbAfter(db, mid[..k]), sized)
      {
        if k <= |ws| { assert mid[..k] == ws[..k]; } else { assert mid[..k] == mid; }
      }
      forall i | 0 <= i < |ops| - 1
        ensures vs[|mid| + i].op == ops[1..][i]
      {
        assert vs[|ws| + (i + 1)].op == ops[i + 1];
      }
      SafeWritesKeep(db, mid, vs, ops[1..], sized);
    }
  }

  // ---- whose fault an oversized field is ------------------------------------

  predicate EffectFits(f: Effect)
  {
    match f
    case Trust(peer) => FitsField(peer)
    case Name(peer, name) => FitsField(peer) && FitsField(name)
    case Ask(peer) => FitsField(peer)
    case Answer(peer, _) => FitsField(peer)
    case Log(m) => Storage.MessageFits(m)
    case Surface(peer, greeting, _) => FitsField(peer) && FitsField(greeting)
    case Respond(peer, _) => FitsField(peer)
    case _ => true
  }

  /** A message to the peer goes out: it is a contact with a session, there is somewhere
      to send to, and the socket takes it. */
  predicate GoesOut(c: Suite, e: Engine, peer: Bytes, ok: bool)
  {
    && Storage.TrustOf(e.db, peer) == Some(ACCEPTED) && HasSession(c, e, peer)
    && (Hex(peer) in e.endpoints || e.relay.Some?) && ok
  }

  /** The caller's side: sizes given to set_nickname, and of a text that goes out. */
  predicate Courteous(c: Suite, e: Engine, x: Input)
  {
    match x
    case SetNickname(peer, name) => FitsField(peer) && FitsField(name)
    case Send(peer, text, _, ok, _) => GoesOut(c, e, peer, ok) ==> FitsField(text)
    case _ => true
  }

  lemma SendReturns(c: Suite, e: Engine, x: Input)
    requires x.Send?
    ensures EngineModel.Step(c, e, x).ret <==> GoesOut(c, e, x.peer, x.ok)
  {
    hide Storage.TrustOf;
    hide Sessions.EncryptAs;
    hide Sessions.New;
    hide Hex;
  }

  lemma ContactOrFits(db: Db, peer: Bytes)
    requires Storage.FieldsFit(db)
    ensures FitsField(ContactOr(db, peer).nickname)
  {
    assert Storage.Find(db.contacts, peer).Some? ==> Storage.ContactFits(Storage.Find(db.contacts, peer).value);
  }

  lemma SafeOne(db: Db, op: Storage.Op, sized: bool)
    requires OpSafe(db, op, sized)
    ensures AllSafe(db, [op], sized)
  {
    assert [op][1..] == [];
  }

  lemma SafeCons(db: Db, op: Storage.Op, ops: seq<Storage.Op>, sized: bool)
    requires OpSafe(db, op, sized) && AllSafe(Storage.Apply(db, op), ops, sized)
    ensures AllSafe(db, [op] + ops, sized)
  {
    assert ([op] + ops)[1..] == ops;
  }

  lemma GreetingIsSafe(db: Db, peer: Bytes, greeting: Bytes, now: i64, sized: bool)
    requires Storage.Find(db.contacts, peer).Some? && (sized ==> FitsField(peer) && FitsField(greeting))
    ensures AllSafe(db, OpsOfGreeting(db, peer, greeting, now), sized)
  {
    hide AllSafe;
    var last := Storage.AddRequest(Request(peer, greeting, now));
    if greeting == [] {
      assert OpsOfGreeting(db, peer, greeting, now) == [last];
      SafeOne(db, last, sized);
    } else {
      var op := Storage.UpsertOp(Named(db, peer, greeting));
      SafeOne(Storage.Apply(db, op), last, sized);
      SafeCons(db, op, [last], sized);
    }
  }

  lemma EffectIsSafe(db: Db, f: Effect, sized: bool)
    requires sized ==> Storage.FieldsFit(db) && EffectFits(f)
    ensures AllSafe(db, OpsOf(db, f), sized)
  {
    hide AllSafe;
    hide Storage.FieldsFit;
    hide Storage.Without;
    var ops := OpsOf(db, f);
    if sized && (f.Trust? || f.Ask? || f.Answer? || f.Surface? || f.Respond?) { ContactOrFits(db, f.peer); }
    match f
    case Surface(peer, greeting, now) =>
      GreetingIsSafe(SetTrust(db, peer, PENDING), peer, greeting, now, sized);
      SafeCons(db, ops[0], OpsOfGreeting(SetTrust(db, peer, PENDING), peer, greeting, now), sized);
    case Answer(_, _) =>
      assert ops == [ops[0]] + [ops[1]];
      SafeOne(Storage.Apply(db, ops[0]), ops[1], sized);
      SafeCons(db, ops[0], [ops[1]], sized);
    case Nothing => NoneIsSafe(db, sized);
    case Reboot => NoneIsSafe(db, sized);
    case _ => SafeOne(db, ops[0], sized);
  }

  lemma NoneIsSafe(db: Db, sized: bool)
    ensures AllSafe(db, [], sized)
  {
  }

  /** What an engine knows of a peer it has a session with: a key of proper length. */
  lemma SessionPeerFits(c: Suite, e: Engine, peer: Bytes)
    requires Correct(c) && Sound(c, e, peer) && HasSession(c, e, peer)
    ensures FitsField(peer)
  {
  }

  /** No datagram has an effect that does not fit. */
  lemma ReceiptFits(c: Suite, e: Engine, p: Packet, now: i64)
    requires Correct(c) && p.Fits()
    ensures EffectFits(ReceiptEffect(c, e, p, now))
  {
    hide Correct;
    hide Allowed;
    hide Hex;
    hide Admit;
    if Admit(c, e, p).1.Some? { AdmittedFits(c, e, p); }
  }

  lemma AdmittedFits(c: Suite, e: Engine, p: Packet)
    requires Correct(c) && Admit(c, e, p).1.Some?
    ensures |Admit(c, e, p).1.value| <= |p.payload|
  {
    hide AssociatedData;
    hide Hex;
  }

  /** In a sound engine an effect fits exactly when the caller kept to sizes. */
  lemma EffectFitsIffCourteous(c: Suite, e: Engine, x: Input)
    requires Correct(c) && AllSound(c, e) && Storage.FieldsFit(e.db)
    ensures EffectFits(EffectOf(c, e, x)) <==> Courteous(c, e, x)
  {
    hide EngineModel.Step;
    hide HasSession;
    hide Sound;
    hide ReceiptEffect;
    hide Parse;
    hide Hex;
    hide Correct;
    if (x.AddPeer? || x.SendContactRequest? || x.AcceptContact? || x.RejectContact?) && HasSession(c, e, x.peer) {
      assert Sound(c, e, x.peer);
      SessionPeerFits(c, e, x.peer);
    }
    if Polled(x).Some? {
      SerializeOfParse(x.datagram.value.data);
      ReceiptFits(c, e, Polled(x).value, x.now);
    }
    if x.Send? {
      SendReturns(c, e, x);
      assert Storage.TrustOf(e.db, x.peer).Some? ==> FitsField(x.peer);
    }
  }

  lemma {:induction false} SafeFoldFits(db: Db, ops: seq<Storage.Op>)
    requires Storage.FieldsFit(db) && AllSafe(db, ops, true)
    ensures Storage.FieldsFit(Fold(db, ops))
    decreases |ops|
  {
    hide Storage.FieldsFit;
    hide Storage.Apply;
    if ops != [] {
      Storage.OpKeepsFieldsFit(db, ops[0]);
      SafeFoldFits(Storage.Apply(db, ops[0]), ops[1..]);
    }
  }

  /** Only the caller can make a stored field oversized: every other step, whatever
      datagram it polls, keeps them in bounds. */
  lemma OnlyCallersOversize(c: Suite, e: Engine, x: Input)
    requires Correct(c) && AllSound(c, e) && Storage.FieldsFit(e.db)
    ensures Storage.FieldsFit(EngineModel.Step(c, e, x).st.db) <==> Courteous(c, e, x)
  {
    hide EngineModel.Step;
    hide Storage.FieldsFit;
    hide Fold;
    var f := EffectOf(c, e, x);
    EffectFitsIffCourteous(c, e, x);
    StepIsItsOps(c, e, x);
    if EffectFits(f) {
      EffectIsSafe(e.db, f, true);
      SafeFoldFits(e.db, OpsOf(e.db, f));
    } else if f.Name? || f.Log? {
      FoldOne(e.db, OpsOf(e.db, f)[0]);
      Storage.OpKeepsFieldsFit(e.db, OpsOf(e.db, f)[0]);
    }
  }

  // ---- lifetimes of the engine ----------------------------------------------

  /** Memory is what the writes made of the opened store; books and sessions are
      sound; and every database on the way was good. */
  ghost predicate Inv(c: Suite, passphrase: Bytes, w: World, sized: bool)
  {
    && Storage.Opened(c, w.start, passphrase) && w.e.db == Storage.DbAfter(w.start.db, w.ws)
    && Books(w.e.db, w.e.incoming) && AllSound(c, w.e) && Kept(w.start.db, w.ws, sized)
  }

  /** A process that has just opened a store with sound books, a new one for
      instance, starts so; what it opened is in bounds already. */
  lemma FirstWorld(c: Suite, passphrase: Bytes, self: Bytes, secret: Bytes, s: Storage.State, sized: bool)
    requires Storage.Opened(c, s, passphrase) && Books(s.db, RequestKeys(s.db.requests))
    ensures Inv(c, passphrase, World(Boot(self, secret, s.db), s, []), sized)
  {
    hide Books;
    hide Sound;
    hide RequestKeys;
    hide Storage.Opened;
    hide InBounds;
    BootIsSound(c, self, secret, s.db);
    Storage.OpenedIsBacked(c, s, passphrase);
    Storage.BoundsAreFieldsAndCounts(s.db);
    var none: seq<Storage.Write> := [];
    assert forall k :: 0 <= k <= |none| ==> none[..k] == [];
  }

  /** What was last saved is one of the databases on the way. */
  lemma SavedIsGood(w: World, sized: bool)
    requires Kept(w.start.db, w.ws, sized)
    ensures Good(Saved(w), sized)
    ensures sized ==> (InBounds(Saved(w)) <==> Storage.CountsFit(Saved(w)))
  {
    hide Storage.LastSaved;
    hide Storage.DbAfter;
    hide Books;
    Storage.LastSavedIsPast(w.start.db, w.ws);
    Storage.BoundsAreFieldsAndCounts(Saved(w));
  }

  /** A new process can open the file and start from what was last saved exactly when
      that is in codec bounds. */
  lemma ReopeningGivesSaved(c: Suite, passphrase: Bytes, w: World)
    requires Correct(c) && Storage.Opened(c, w.start, passphrase)
    ensures InBounds(Saved(w)) <==>
            exists v :: Reopened(c, passphrase, w, v) && v.e == Boot(w.e.self, w.e.secret, Saved(w))
    ensures InBounds(Saved(w)) ==> forall v :: Reopened(c, passphrase, w, v) ==>
              v.e == Boot(w.e.self, w.e.secret, Saved(w)) && v.ws == [] && v.start.db == v.e.db &&
              Storage.Opened(c, v.start, passphrase)
  {
    hide Storage.LastSaved;
    hide Storage.UpToDate;
    hide Storage.NoSaveFailed;
    hide Storage.WentThrough;
    hide Storage.DbAfter;
    hide Storage.Live;
    hide Storage.After;
    hide Storage.Open;
    hide Storage.Opened;
    hide InBounds;
    hide Correct;
    hide RequestKeys;
    var blank := Storage.State(EMPTY, false, [], [], Storage.After(c, w.start, w.ws).file);
    Storage.OpenedIsLive(c, w.start, passphrase);
    Storage.Durability(c, w.start, passphrase, w.ws, blank, [], Storage.Io([], false));
    var (t, ok) := Storage.Open(c, blank, passphrase, [], Storage.Io([], false));
    if InBounds(Saved(w)) {
      assert Reopened(c, passphrase, w, World(Boot(w.e.self, w.e.secret, t.db), t, []));
    }
  }

  /** Restart is what it stands for: when the last save attempted since the store was
      opened went through, a new engine that opens the file is the engine a Restart step gives, if
      and only if the database is in codec bounds. */
  lemma RestartIsReopen(c: Suite, passphrase: Bytes, w: World)
    requires Correct(c) && Storage.Opened(c, w.start, passphrase)
    requires w.e.db == Storage.DbAfter(w.start.db, w.ws) && Current(w)
    ensures Saved(w) == w.e.db
    ensures InBounds(w.e.db) <==>
            exists v :: Reopened(c, passphrase, w, v) && v.e == EngineModel.Step(c, w.e, Restart).st
  {
    hide Storage.LastSaved;
    hide Storage.UpToDate;
    hide Storage.DbAfter;
    hide Storage.Opened;
    hide Reopened;
    hide InBounds;
    hide Correct;
    Storage.LastSavedIsPast(w.start.db, w.ws);
    ReopeningGivesSaved(c, passphrase, w);
    assert EngineModel.Step(c, w.e, Restart).st == Boot(w.e.self, w.e.secret, Saved(w));
  }

  lemma TurnKeepsInv(c: Suite, passphrase: Bytes, w: World, x: Input, v: World, sized: bool)
    requires Correct(c) && Inv(c, passphrase, w, sized) && IsTurn(c, passphrase, w, x, v)
    requires if x.Restart? then InBounds(Saved(w)) else sized ==> Courteous(c, w.e, x)
    ensures Inv(c, passphrase, v, sized)
  {
    hide EngineModel.Step;
    hide EffectOf;
    hide OpsOf;
    hide Books;
    hide Sound;
    hide Storage.FieldsFit;
    hide Storage.Opened;
    hide InBounds;
    hide Correct;
    hide RequestKeys;
    if x.Restart? {
      hide Reopened;
      ReopeningGivesSaved(c, passphrase, w);
      SavedIsGood(w, sized);
      BootIsSound(c, w.e.self, w.e.secret, Saved(w));
      assert forall k :: 0 <= k <= |v.ws| ==> v.ws[..k] == [];
    } else {
      StepKeepsBooks(c, w.e, x);
      StepKeepsAllSound(c, w.e, x);
      StepIsItsOps(c, w.e, x);
      assert w.ws[..|w.ws|] == w.ws;
      if sized { EffectFitsIffCourteous(c, w.e, x); }
      EffectIsSafe(w.e.db, EffectOf(c, w.e, x), sized);
      SafeWritesKeep(w.start.db, w.ws, v.ws, StepOps(c, w.e, x), sized);
    }
  }

  lemma BootIsSound(c: Suite, self: Bytes, secret: Bytes, db: Db)
    ensures AllSound(c, Boot(self, secret, db))
  {
  }

  // ---- whole histories ------------------------------------------------------

  /** One call, or one restart, in the life of an engine and its store. */
  datatype Lap = Lap(pre: World, x: Input, post: World)

  function WorldAt(first: World, laps: seq<Lap>, n: nat): World
    requires n <= |laps|
  {
    if n == 0 then first else laps[n - 1].post
  }

  ghost predicate IsLap(c: Suite, passphrase: Bytes, first: World, laps: seq<Lap>, i: nat)
    requires i < |laps|
  {
    laps[i].pre == WorldAt(first, laps, i) && IsTurn(c, passphrase, laps[i].pre, laps[i].x, laps[i].post)
  }

  ghost predicate IsHistory(c: Suite, passphrase: Bytes, first: World, laps: seq<Lap>)
  {
    forall i :: 0 <= i < |laps| ==> IsLap(c, passphrase, first, laps, i)
  }

  /** Every restart came after the last attempted save went through.  Earlier saves may
      have failed. */
  ghost predicate Caught(laps: seq<Lap>)
  {
    forall i :: 0 <= i < |laps| && laps[i].x.Restart? ==> Current(laps[i].pre)
  }

  /** Every restart found a file in codec bounds. */
  ghost predicate Reopenable(laps: seq<Lap>)
  {
    forall i :: 0 <= i < |laps| && laps[i].x.Restart? ==> InBounds(Saved(laps[i].pre))
  }

  /** Books across lifetimes, with any writes failing: in every reachable state, and
      in what a new process would find, contacts and requests are in order and the
      pending set is the image of the stored requests. */
  lemma {:induction false} BooksSurviveFailedWrites(c: Suite, passphrase: Bytes, first: World, laps: seq<Lap>, n: nat)
    requires Correct(c) && Inv(c, passphrase, first, false)
    requires IsHistory(c, passphrase, first, laps) && Reopenable(laps) && n <= |laps|
    ensures var w := WorldAt(first, laps, n);
            Inv(c, passphrase, w, false) && Books(w.e.db, w.e.incoming) &&
            Books(Saved(w), RequestKeys(Saved(w).requests))
  {
    hide Inv;
    hide IsTurn;
    hide InBounds;
    hide Saved;
    hide Correct;
    if n > 0 {
      BooksSurviveFailedWrites(c, passphrase, first, laps, n - 1);
      assert IsLap(c, passphrase, first, laps, n - 1);
      var lap := laps[n - 1];
      TurnKeepsInv(c, passphrase, lap.pre, lap.x, lap.post, false);
    }
    InvHasBooks(c, passphrase, WorldAt(first, laps, n));
  }

  lemma InvHasBooks(c: Suite, passphrase: Bytes, w: World)
    requires Inv(c, passphrase, w, false)
    ensures Books(w.e.db, w.e.incoming) && Books(Saved(w), RequestKeys(Saved(w).requests))
  {
    SavedIsGood(w, false);
  }

  /** While callers keep to sizes, nothing that arrives and no failed write ever makes
      the file unreadable: what a new process finds is in bounds as long as the lists
      have fewer than 2^32 entries. */
  lemma {:induction false} FileStaysReadable(c: Suite, passphrase: Bytes, first: World, laps: seq<Lap>, n: nat)
    requires Correct(c) && Inv(c, passphrase, first, true)
    requires IsHistory(c, passphrase, first, laps) && n <= |laps|
    requires forall i :: 0 <= i < |laps| ==> Courteous(c, laps[i].pre.e, laps[i].x)
    requires forall i :: 0 <= i < |laps| && laps[i].x.Restart? ==> Storage.CountsFit(Saved(laps[i].pre))
    ensures var w := WorldAt(first, laps, n);
            Inv(c, passphrase, w, true) && (InBounds(Saved(w)) <==> Storage.CountsFit(Saved(w)))
  {
    hide Inv;
    hide IsTurn;
    hide InBounds;
    hide Storage.CountsFit;
    hide Saved;
    hide Correct;
    hide Courteous;
    if n > 0 {
      FileStaysReadable(c, passphrase, first, laps, n - 1);
      assert IsLap(c, passphrase, first, laps, n - 1);
      var lap := laps[n - 1];
      TurnKeepsInv(c, passphrase, lap.pre, lap.x, lap.post, true);
    }
    InvHasBounds(c, passphrase, WorldAt(first, laps, n));
  }

  lemma InvHasBounds(c: Suite, passphrase: Bytes, w: World)
    requires Inv(c, passphrase, w, true)
    ensures InBounds(Saved(w)) <==> Storage.CountsFit(Saved(w))
  {
    SavedIsGood(w, true);
  }

  // ---- histories whose last saves went through ------------------------------

  /** The history as a run of the engine alone. */
  function RunOf(c: Suite, laps: seq<Lap>): (run: seq<Entry>)
    ensures |run| == |laps|
    ensures forall i :: 0 <= i < |laps| ==>
              run[i] == Entry(laps[i].pre.e, laps[i].x, EngineModel.Step(c, laps[i].pre.e, laps[i].x))
  {
    seq(|laps|, i requires 0 <= i < |laps| =>
          Entry(laps[i].pre.e, laps[i].x, EngineModel.Step(c, laps[i].pre.e, laps[i].x)))
  }

  /** If a save went through before each restart, engines that really re-open their file
      behave as a run in which Restart keeps the database: the theorems over runs are
      about them. */
  lemma SavedHistoryIsRun(c: Suite, passphrase: Bytes, first: World, laps: seq<Lap>)
    requires Correct(c) && Inv(c, passphrase, first, false)
    requires IsHistory(c, passphrase, first, laps) && Reopenable(laps) && Caught(laps)
    ensures IsRun(c, first.e, RunOf(c, laps))
    ensures forall n :: 0 <= n <= |laps| ==> At(first.e, RunOf(c, laps), n) == WorldAt(first, laps, n).e
  {
    hide EngineModel.Step;
    hide Inv;
    hide IsTurn;
    hide Current;
    hide InBounds;
    hide Correct;
    var run := RunOf(c, laps);
    forall i | 0 <= i < |laps|
      ensures laps[i].pre == WorldAt(first, laps, i) &&
              laps[i].post.e == EngineModel.Step(c, laps[i].pre.e, laps[i].x).st
    {
      assert IsLap(c, passphrase, first, laps, i);
      BooksSurviveFailedWrites(c, passphrase, first, laps, i);
      SavedTurnIsStep(c, passphrase, laps[i].pre, laps[i].x, laps[i].post);
    }
    forall n | 0 <= n <= |laps|
      ensures At(first.e, run, n) == WorldAt(first, laps, n).e
    {
    }
    forall i | 0 <= i < |run|
      ensures IsStep(c, first.e, run, i)
    {
    }
  }

  lemma SavedTurnIsStep(c: Suite, passphrase: Bytes, w: World, x: Input, v: World)
    requires Correct(c) && Inv(c, passphrase, w, false) && IsTurn(c, passphrase, w, x, v)
    requires x.Restart? ==> Current(w) && InBounds(Saved(w))
    ensures v.e == EngineModel.Step(c, w.e, x).st
  {
    if x.Restart? {
      hide Books;
      hide Storage.Opened;
      hide Storage.DbAfter;
      hide Storage.LastSaved;
      hide Reopened;
      hide InBounds;
      hide Correct;
      RestartIsReopen(c, passphrase, w);
      ReopeningGivesSaved(c, passphrase, w);
    }
  }

  /** So a peer's request is surfaced at most once, however often the process is
      restarted on its file. */
  lemma OneRequestAcrossLifetimes(c: Suite, passphrase: Bytes, first: World, laps: seq<Lap>, peer: Bytes)
    requires Correct(c) && Inv(c, passphrase, first, false)
    requires IsHistory(c, passphrase, first, laps) && Reopenable(laps) && Caught(laps)
    ensures CountSurfaced(RunOf(c, laps), |laps|, peer) <= 1
    ensures Storage.TrustOf(first.e.db, peer).Some? ==> CountSurfaced(RunOf(c, laps), |laps|, peer) == 0
  {
    hide EngineModel.Step;
    hide Inv;
    hide IsHistory;
    SavedHistoryIsRun(c, passphrase, first, laps);
    OneRequestPerPeer(c, first.e, RunOf(c, laps), |laps|, peer);
  }
}
