/** What holds over lifetimes that really re-open their file, failed writes included:
    where trust comes from, and what codec bounds protect against. */
module EngineHistory {
  import opened Octets
  import opened HexKeys
  import opened StoreCodec
  import opened Crypto
  import opened EngineModel
  import opened EngineLedger
  import opened EngineSessions
  import opened EngineTrust
  import opened EngineStore
  import Blob
  import Storage

  // ---- provenance of what a database says -----------------------------------

  /** A database owes its contact to a voucher and its request to a surfacing. */
  ghost predicate Owes(db: Db, peer: Bytes, vouched: bool, surfaced: bool)
  {
    && (Storage.TrustOf(db, peer) == Some(ACCEPTED) ==> vouched)
    && (Storage.HasRequest(db.requests, peer) ==> surfaced)
  }

  /** Every database since the store was opened does. */
  ghost predicate AllOwe(db: Db, ws: seq<Storage.Write>, peer: Bytes, vouched: bool, surfaced: bool)
  {
    forall k :: 0 <= k <= |ws| ==> Owes(Storage.DbAfter(db, ws[..k]), peer, vouched, surfaced)
  }

  /** An operation that accepts the peer, or stores its request, has its reason. */
  predicate Licensed(op: Storage.Op, peer: Bytes, vouched: bool, surfaced: bool)
  {
    && !op.AddContact?
    && (op.UpsertOp? && op.contact.publicKey == peer && op.contact.trust == ACCEPTED ==> vouched)
    && (op.AddRequest? && op.request.peer == peer ==> surfaced)
  }

  lemma LicensedOpOwes(db: Db, op: Storage.Op, peer: Bytes, vouched: bool, surfaced: bool)
    requires Owes(db, peer, vouched, surfaced) && Licensed(op, peer, vouched, surfaced)
    ensures Owes(Storage.Apply(db, op), peer, vouched, surfaced)
  {
    hide Storage.Find;
    if op.RemoveRequest? {
      Storage.WithoutKeepsOthers(db.requests, op.peer);
      var rest := Storage.Without(db.requests, op.peer);
      assert forall i :: 0 <= i < |rest| ==> rest[i] in rest && rest[i] in db.requests;
    }
  }

  lemma {:induction false} LicensedWritesOwe(db: Db, ws: seq<Storage.Write>, vs: seq<Storage.Write>,
                                             ops: seq<Storage.Op>, peer: Bytes, vouched: bool, surfaced: bool)
    requires AllOwe(db, ws, peer, vouched, surfaced) && Wrote(ws, vs, ops)
    requires forall i :: 0 <= i < |ops| ==> Licensed(ops[i], peer, vouched, surfaced)
    ensures AllOwe(db, vs, peer, vouched, surfaced)
    decreases |ops|
  {
    hide Owes;
    hide Licensed;
    hide Storage.Apply;
    assert ws[..|ws|] == ws;
    if ops == [] {
      assert vs == ws;
    } else {
      var mid := vs[..|ws| + 1];
      assert mid[..|ws|] == ws;
      LicensedOpOwes(Storage.DbAfter(db, ws), ops[0], peer, vouched, surfaced);
      forall k | 0 <= k <= |mid|
        ensures Owes(Storage.DbAfter(db, mid[..k]), peer, vouched, surfaced)
      {
        if k <= |ws| { assert mid[..k] == ws[..k]; } else { assert mid[..k] == mid; }
      }
      forall i | 0 <= i < |ops| - 1
        ensures vs[|mid| + i].op == ops[1..][i]
      {
        assert vs[|ws| + (i + 1)].op == ops[i + 1];
      }
      LicensedWritesOwe(db, mid, vs, ops[1..], peer, vouched, surfaced);
    }
  }

  /** The effects that accept a peer, and the one that stores its request. */
  predicate Accepts(f: Effect, peer: Bytes) { f == Trust(peer) || f == Answer(peer, true) || f == Respond(peer, true) }
  predicate Surfaces(f: Effect, peer: Bytes) { f.Surface? && f.peer == peer }

  lemma EffectIsLicensed(db: Db, f: Effect, peer: Bytes, vouched: bool, surfaced: bool)
    requires Owes(db, peer, vouched, surfaced)
    requires (Accepts(f, peer) ==> vouched) && (Surfaces(f, peer) ==> surfaced)
    ensures var ops := OpsOf(db, f);
            forall i :: 0 <= i < |ops| ==> Licensed(ops[i], peer, vouched, surfaced)
  {
    hide Storage.Find;
    hide Storage.Upsert;
    hide Storage.HasRequest;
  }

  // ---- over a history -------------------------------------------------------

  ghost predicate Surfaced(run: seq<Entry>, n: nat, peer: Bytes)
    requires n <= |run|
  {
    exists j :: 0 <= j < n && RequestSurfacedFrom(run[j], peer)
  }

  ghost predicate Requested(run: seq<Entry>, n: nat, peer: Bytes)
    requires n <= |run|
  {
    exists j :: 0 <= j < n && RequestedByUs(run[j], peer)
  }

  /** The history up to lap n accounts for every database the file could hold. */
  ghost predicate Explained(c: Suite, w: World, run: seq<Entry>, n: nat, peer: Bytes)
    requires n <= |run|
  {
    && AllOwe(w.start.db, w.ws, peer, Vouched(c, run, n, peer), Surfaced(run, n, peer))
    && (Hex(peer) in w.e.outgoing ==> Requested(run, n, peer))
  }

  lemma ExplanationsLast(c: Suite, w: World, run: seq<Entry>, n: nat, peer: Bytes)
    requires n < |run| && Explained(c, w, run, n, peer)
    ensures Explained(c, w, run, n + 1, peer)
  {
    hide Voucher;
    hide RequestSurfacedFrom;
    hide RequestedByUs;
    hide Storage.TrustOf;
    hide Storage.HasRequest;
    hide Hex;
  }

  /** The reason of an accepting effect is on the history's record. */
  lemma EffectIsVouched(c: Suite, e: Engine, x: Input, run: seq<Entry>, n: nat, peer: Bytes)
    requires n < |run| && run[n] == Entry(e, x, EngineModel.Step(c, e, x))
    requires Sound(c, e, peer) && Books(e.db, e.incoming)
    requires Owes(e.db, peer, Vouched(c, run, n, peer), Surfaced(run, n, peer))
    requires Hex(peer) in e.outgoing ==> Requested(run, n, peer)
    ensures Accepts(EffectOf(c, e, x), peer) ==> Voucher(c, run, n, peer)
    ensures Surfaces(EffectOf(c, e, x), peer) ==> RequestSurfacedFrom(run[n], peer)
    ensures Hex(peer) in EngineModel.Step(c, e, x).st.outgoing ==> Requested(run, n + 1, peer)
  {
    hide EngineModel.Step;
    hide EffectOf;
    hide EngineLedger.Apply;
    hide Sound;
    hide Added;
    hide AcceptedByUs;
    hide AcceptedByPeer;
    hide RequestSurfacedFrom;
    hide RequestedByUs;
    hide Storage.TrustOf;
    hide Hex;
    var f := EffectOf(c, e, x);
    StepHasItsEffect(c, e, x);
    EffectIsVisible(c, e, x, peer);
    PendingEffects(LedgerOf(e), f, peer);
    if f == Answer(peer, true) { PendingIsStored(e, peer); }
  }

  lemma PendingIsStored(e: Engine, peer: Bytes)
    requires Books(e.db, e.incoming) && Hex(peer) in e.incoming
    ensures Storage.HasRequest(e.db.requests, peer)
  {
    HexKeysAreFaithful();
    hide Hex;
    var q :| q in e.db.requests && Hex(q.peer) == Hex(peer);
    var i :| 0 <= i < |e.db.requests| && e.db.requests[i] == q;
  }

  lemma TurnIsExplained(c: Suite, passphrase: Bytes, w: World, x: Input, v: World, run: seq<Entry>, n: nat, peer: Bytes)
    requires Correct(c) && Inv(c, passphrase, w, false) && IsTurn(c, passphrase, w, x, v)
    requires x.Restart? ==> InBounds(Saved(w))
    requires n < |run| && run[n] == Entry(w.e, x, EngineModel.Step(c, w.e, x)) && Explained(c, w, run, n, peer)
    ensures Explained(c, v, run, n + 1, peer)
  {
    hide EngineModel.Step;
    hide EffectOf;
    hide OpsOf;
    hide Owes;
    hide Licensed;
    hide Books;
    hide Sound;
    hide Voucher;
    hide RequestSurfacedFrom;
    hide RequestedByUs;
    hide Storage.Opened;
    hide InBounds;
    hide Correct;
    hide RequestKeys;
    hide Kept;
    hide Hex;
    ExplanationsLast(c, w, run, n, peer);
    var vouched, surfaced := Vouched(c, run, n + 1, peer), Surfaced(run, n + 1, peer);
    if x.Restart? {
      hide Reopened;
      ReopeningGivesSaved(c, passphrase, w);
      Storage.LastSavedIsPast(w.start.db, w.ws);
      assert Owes(Saved(w), peer, vouched, surfaced);
      assert forall k :: 0 <= k <= |v.ws| ==> v.ws[..k] == [];
    } else {
      assert w.ws[..|w.ws|] == w.ws;
      assert Sound(c, w.e, peer);
      EffectIsVouched(c, w.e, x, run, n, peer);
      EffectIsLicensed(w.e.db, EffectOf(c, w.e, x), peer, vouched, surfaced);
      LicensedWritesOwe(w.start.db, w.ws, v.ws, StepOps(c, w.e, x), peer, vouched, surfaced);
    }
  }

  lemma {:induction false} HistoryIsExplained(c: Suite, passphrase: Bytes, first: World, laps: seq<Lap>, n: nat,
                                              peer: Bytes)
    requires Correct(c) && Inv(c, passphrase, first, false)
    requires IsHistory(c, passphrase, first, laps) && Reopenable(laps) && n <= |laps|
    requires first.start.db == EMPTY && first.ws == [] && first.e.outgoing == {}
    ensures Explained(c, WorldAt(first, laps, n), RunOf(c, laps), n, peer)
  {
    hide EngineModel.Step;
    hide Inv;
    hide IsTurn;
    hide InBounds;
    hide Saved;
    hide Correct;
    hide Books;
    if n == 0 {
      assert forall k :: 0 <= k <= |first.ws| ==> first.ws[..k] == [];
    } else {
      hide Explained;
      HistoryIsExplained(c, passphrase, first, laps, n - 1, peer);
      assert IsLap(c, passphrase, first, laps, n - 1);
      BooksSurviveFailedWrites(c, passphrase, first, laps, n - 1);
      var lap := laps[n - 1];
      TurnIsExplained(c, passphrase, lap.pre, lap.x, lap.post, RunOf(c, laps), n - 1, peer);
    }
  }

  /** Acceptance provenance over lifetimes.  From an empty store, with any writes
      failing, whoever is accepted, in memory or in what a new process would find, was
      vouched for in the history: a failed write can lose an acceptance, never make one. */
  lemma AcceptanceAcrossLifetimes(c: Suite, passphrase: Bytes, first: World, laps: seq<Lap>, n: nat, peer: Bytes)
    requires Correct(c) && Inv(c, passphrase, first, false)
    requires IsHistory(c, passphrase, first, laps) && Reopenable(laps) && n <= |laps|
    requires first.start.db == EMPTY && first.ws == [] && first.e.outgoing == {}
    requires var w := WorldAt(first, laps, n);
             Storage.TrustOf(w.e.db, peer) == Some(ACCEPTED) || Storage.TrustOf(Saved(w), peer) == Some(ACCEPTED)
    ensures Vouched(c, RunOf(c, laps), n, peer)
  {
    hide Books;
    hide Vouched;
    hide Surfaced;
    hide Requested;
    hide InBounds;
    hide Correct;
    hide Storage.Opened;
    hide Storage.TrustOf;
    hide Storage.HasRequest;
    hide Kept;
    hide AllSound;
    hide IsTurn;
    var w := WorldAt(first, laps, n);
    HistoryIsExplained(c, passphrase, first, laps, n, peer);
    BooksSurviveFailedWrites(c, passphrase, first, laps, n);
    Storage.LastSavedIsPast(w.start.db, w.ws);
    assert w.ws[..|w.ws|] == w.ws;
  }

  /** And a message is delivered only from a peer vouched for before it arrived. */
  lemma DeliveryAcrossLifetimes(c: Suite, passphrase: Bytes, first: World, laps: seq<Lap>, i: nat, peer: Bytes,
                                text: Bytes)
    requires Correct(c) && Inv(c, passphrase, first, false)
    requires IsHistory(c, passphrase, first, laps) && Reopenable(laps) && i < |laps|
    requires first.start.db == EMPTY && first.ws == [] && first.e.outgoing == {}
    requires RunOf(c, laps)[i].out.event == Some(MessageDelivered(peer, text))
    ensures Vouched(c, RunOf(c, laps), i, peer)
  {
    hide EngineModel.Step;
    hide EffectOf;
    hide Inv;
    hide IsTurn;
    hide Vouched;
    hide InBounds;
    hide Correct;
    assert IsLap(c, passphrase, first, laps, i);
    StepHasItsEffect(c, laps[i].pre.e, laps[i].x);
    AcceptanceAcrossLifetimes(c, passphrase, first, laps, i, peer);
  }

  // ---- what codec bounds protect against ------------------------------------

  function Zeros(n: nat): (z: Bytes)
    ensures |z| == n && forall i :: 0 <= i < n ==> z[i] == 0
  {
    seq(n, _ => 0)
  }

  /** The bytes of a contact's tail, no messages, and the start of one long request. */
  function Front(): (b: Bytes)
    ensures |b| == 21
  {
    Zeros(9) + Be(4, 0) + Be(4, 1) + Be(2, 0) + Be(2, 65524)
  }

  /** A nickname one byte too long, whose length prefix is cut to zero. */
  function LongName(): (b: Bytes)
    ensures |b| == 0x1_0000
  {
    Front() + Zeros(65515)
  }

  function Written(peer: Bytes): Db { Db([Contact(peer, LongName(), PENDING, 0)], [], []) }
  function Misread(peer: Bytes): Db { Db([Contact(peer, [], PENDING, 0)], [], [Request([], Zeros(65524), 0)]) }

  lemma SmallNumbers()
    ensures Be(2, 0) == Zeros(2) && Be(2, 0x1_0000) == Zeros(2) && Be(4, 0) == Zeros(4) && Be(8, 0) == Zeros(8)
  {
    assert Be(1, 0) == [0] && Be(1, 256) == [0];
    assert Be(2, 0) == [0, 0] && Be(2, 0x1_0000) == [0, 0];
    assert Be(3, 0) == [0, 0, 0];
    assert Be(4, 0) == [0, 0, 0, 0];
    assert Be(5, 0) == Be(4, 0) + [0];
    assert Be(6, 0) == Be(5, 0) + [0];
    assert Be(7, 0) == Be(6, 0) + [0];
    assert Be(8, 0) == Be(7, 0) + [0];
  }

  lemma WrittenBytes(peer: Bytes)
    ensures Encode(Written(peer)) == [PAYLOAD_VERSION] + Be(4, 1) + Field(peer) + Zeros(2) + Front() + Zeros(65532)
  {
    hide Be;
    hide Front;
    SmallNumbers();
    var r := ContactRow(Written(peer).contacts[0]);
    assert ContactRows(Written(peer).contacts) == [r];
    PutOne(r, true);
    PutNothing(true);
    PutNothing(false);
    assert PutTail(0, 0, true) == Zeros(9);
    assert Field(LongName()) == Zeros(2) + Front() + Zeros(65515);
    assert Zeros(65515) + Zeros(9) + Zeros(4) + Zeros(4) == Zeros(65532);
  }

  lemma RequestBytes()
    ensures Zeros(9) + Be(4, 0) + PutList([Row([], Zeros(65524), 0, 0)], false) == Front() + Zeros(65532)
  {
    hide Be;
    SmallNumbers();
    PutOne(Row([], Zeros(65524), 0, 0), false);
    assert Field([]) == Be(2, 0) && PutTail(0, 0, false) == Zeros(8);
    assert Zeros(65524) + Zeros(8) == Zeros(65532);
  }

  lemma Regroup(a: Bytes, b: Bytes, d: Bytes, e: Bytes, f: Bytes, g: Bytes)
    requires b + d + e == f + g
    ensures a + b + (d + e) == a + f + g
  {
    assert a + b + (d + e) == a + (b + d + e);
    assert a + (f + g) == a + f + g;
  }

  lemma MisreadBytes(peer: Bytes)
    ensures Encode(Misread(peer)) == [PAYLOAD_VERSION] + Be(4, 1) + Field(peer) + Zeros(2) + Front() + Zeros(65532)
  {
    hide Be;
    hide Front;
    SmallNumbers();
    var r, q := ContactRow(Misread(peer).contacts[0]), RequestRow(Misread(peer).requests[0]);
    assert ContactRows(Misread(peer).contacts) == [r] && RequestRows(Misread(peer).requests) == [q];
    PutOne(r, true);
    PutNothing(true);
    RequestBytes();
    assert PutTail(0, 0, true) == Zeros(9) && Field([]) == Be(2, 0) == Zeros(2);
    assert q == Row([], Zeros(65524), 0, 0);
    var front := [PAYLOAD_VERSION] + Be(4, 1) + Field(peer) + Zeros(2);
    Regroup(front, Zeros(9), Be(4, 0), PutList([q], false), Front(), Zeros(65532));
  }

  /** Written out, the one database reads as the other. */
  lemma WrittenIsMisread(peer: Bytes)
    requires FitsField(peer)
    ensures Decode(Encode(Written(peer))) == Some(Misread(peer))
  {
    hide Encode;
    hide Decode;
    hide Front;
    hide Be;
    WrittenBytes(peer);
    MisreadBytes(peer);
    Storage.BoundsAreFieldsAndCounts(Misread(peer));
    StoreRoundTrip(Misread(peer));
  }

  /** Why a restart needs a file in bounds.  One set_nickname with that name on an empty
      store, saved without an error: a new process opens the file and finds a request
      from someone who is not a contact. */
  lemma OutOfBoundsBreaksBooks(c: Suite, passphrase: Bytes, w: World, peer: Bytes, nonce: Bytes)
    requires Correct(c) && Inv(c, passphrase, w, false) && w.start.db == EMPTY && w.ws == []
    requires FitsField(peer) && peer != []
    ensures var x := SetNickname(peer, LongName());
            var write := Storage.Write(Storage.UpsertOp(Named(EMPTY, peer, LongName())), Storage.Io(nonce, true));
            var v := World(EngineModel.Step(c, w.e, x).st, w.start, [write]);
            && Turned(c, w, x, v) && Books(v.e.db, v.e.incoming)
            && exists u :: Reopened(c, passphrase, v, u) && !Books(u.e.db, u.e.incoming)
  {
    hide EngineModel.Step;
    hide LongName;
    hide Books;
    hide Sound;
    hide Kept;
    hide Encode;
    hide Decode;
    hide Correct;
    hide Storage.Load;
    var x := SetNickname(peer, LongName());
    var write := Storage.Write(Storage.UpsertOp(Named(EMPTY, peer, LongName())), Storage.Io(nonce, true));
    var v := World(EngineModel.Step(c, w.e, x).st, w.start, [write]);
    SetNicknameOps(c, w.e, peer, LongName());
    WroteOne([], [write], write.op);
    StepKeepsBooks(c, w.e, x);
    assert Named(EMPTY, peer, LongName()) == Contact(peer, LongName(), PENDING, 0);
    assert Storage.Apply(EMPTY, write.op) == Written(peer);
    MisreadIsReopened(c, passphrase, v, peer, write);
    MisreadBreaksBooks(peer, RequestKeys(Misread(peer).requests));
  }

  lemma MisreadIsReopened(c: Suite, passphrase: Bytes, v: World, peer: Bytes, write: Storage.Write)
    requires Correct(c) && Storage.Opened(c, v.start, passphrase) && FitsField(peer) && v.ws == [write]
    requires write.op.UpsertOp? && write.io.ok && Storage.Apply(v.start.db, write.op) == Written(peer)
    ensures exists u :: Reopened(c, passphrase, v, u) && u.e == Boot(v.e.self, v.e.secret, Misread(peer))
  {
    hide LongName;
    hide Encode;
    hide Decode;
    hide Correct;
    hide Storage.Load;
    hide Storage.Apply;
    hide Blob.BlobImage;
    var s := v.start.(db := Written(peer));
    Storage.SavedFileLoads(c, s, write.io, passphrase);
    WrittenIsMisread(peer);
    assert [write][..0] == [] && Storage.After(c, v.start, []) == v.start;
    assert Storage.After(c, v.start, [write]) == Storage.Step(c, v.start, write.op, write.io);
    var after := Storage.After(c, v.start, [write]);
    assert after == Storage.Save(c, s, write.io).0;
    var t := Storage.State(Misread(peer), true, s.salt, s.key, after.file);
    assert Reopened(c, passphrase, v, World(Boot(v.e.self, v.e.secret, Misread(peer)), t, []));
  }

  lemma MisreadBreaksBooks(peer: Bytes, incoming: set<string>)
    requires peer != []
    ensures !Books(Misread(peer), incoming)
  {
    var db := Misread(peer);
    assert db.requests[0] in db.requests;
    assert Storage.Find(db.contacts, []).None?;
  }
}
