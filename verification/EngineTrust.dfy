/** Who becomes a contact, and on whose word: request bookkeeping, acceptance
    provenance and request/response conservation over whole runs. */
module EngineTrust {
  import opened Octets
  import opened HexKeys
  import opened Wire
  import opened StoreCodec
  import opened Crypto
  import opened EngineLedger
  import opened EngineSessions
  import opened EngineModel
  import Storage

  // ---- request bookkeeping --------------------------------------------------

  /** Contacts have unique keys, stored requests have unique peers who are all
      contacts, and the pending set is the hex image of the stored requests. */
  ghost predicate Books(db: Db, incoming: set<string>)
  {
    && Storage.UniqueKeys(db.contacts)
    && Storage.UniquePeers(db.requests)
    && (forall q :: q in db.requests ==> Storage.Find(db.contacts, q.peer).Some?)
    && incoming == RequestKeys(db.requests)
  }

  lemma UpsertKeepsBooks(db: Db, incoming: set<string>, contact: Contact)
    requires Books(db, incoming)
    ensures Books(Storage.UpsertContact(db, contact), incoming)
  {
  }

  lemma AnswerKeepsBooks(db: Db, incoming: set<string>, peer: Bytes)
    requires Books(db, incoming)
    ensures Books(db.(requests := Storage.Without(db.requests, peer)), incoming - {Hex(peer)})
  {
    HexKeysAreFaithful();
    var rest := Storage.Without(db.requests, peer);
    Storage.WithoutKeepsOthers(db.requests, peer);
    Storage.WithoutKeepsPeersUnique(db.requests, peer);
    forall key
      ensures key in incoming - {Hex(peer)} <==> key in RequestKeys(rest)
    {
      if key in incoming - {Hex(peer)} {
        var q :| q in db.requests && key == Hex(q.peer);
        assert q in rest;
      }
    }
  }

  lemma RequestKeysNil()
    ensures RequestKeys([]) == {}
  {
  }

  lemma RequestKeysSnoc(qs: seq<Request>, q: Request)
    ensures RequestKeys(qs + [q]) == RequestKeys(qs) + {Hex(q.peer)}
  {
    forall key
      ensures key in RequestKeys(qs) + {Hex(q.peer)} <==> key in RequestKeys(qs + [q])
    {
      if key in RequestKeys(qs) {
        var r :| r in qs && key == Hex(r.peer);
        assert r in qs + [q];
      } else if key == Hex(q.peer) {
        assert q in qs + [q];
      }
    }
  }

  lemma RequestKeepsBooks(db: Db, incoming: set<string>, q: Request)
    requires Books(db, incoming) && Storage.Find(db.contacts, q.peer).Some? && Hex(q.peer) !in incoming
    ensures Books(Storage.Apply(db, Storage.AddRequest(q)), incoming + {Hex(q.peer)})
  {
    hide Hex;
    RequestKeysSnoc(db.requests, q);
    assert forall i :: 0 <= i < |db.requests| ==> db.requests[i] in db.requests && Hex(db.requests[i].peer) in incoming;
  }

  lemma TrustKeepsBooks(db: Db, incoming: set<string>, peer: Bytes, trust: byte)
    requires Books(db, incoming)
    ensures Books(SetTrust(db, peer, trust), incoming)
  {
    UpsertKeepsBooks(db, incoming, Trusted(db, peer, trust));
  }

  lemma NameKeepsBooks(db: Db, incoming: set<string>, peer: Bytes, name: Bytes)
    requires Books(db, incoming)
    ensures Books(Rename(db, peer, name), incoming)
  {
    UpsertKeepsBooks(db, incoming, Named(db, peer, name));
  }

  lemma SurfacingKeepsBooks(l: Ledger, peer: Bytes, greeting: Bytes, now: i64)
    requires Books(l.db, l.incoming) && Allowed(l, Surface(peer, greeting, now))
    ensures var m := Apply(l, Surface(peer, greeting, now)); Books(m.db, m.incoming)
  {
    hide Books;
    TrustKeepsBooks(l.db, l.incoming, peer, PENDING);
    var db1 := SetTrust(l.db, peer, PENDING);
    NameKeepsBooks(db1, l.incoming, peer, greeting);
    var db2 := if greeting == [] then db1 else Rename(db1, peer, greeting);
    RequestKeepsBooks(db2, l.incoming, Request(peer, greeting, now));
  }

  lemma EffectKeepsBooks(l: Ledger, f: Effect)
    requires Books(l.db, l.incoming) && Allowed(l, f)
    ensures var m := Apply(l, f); Books(m.db, m.incoming)
  {
    match f
    case Trust(peer) => TrustKeepsBooks(l.db, l.incoming, peer, ACCEPTED);
    case Name(peer, name) => NameKeepsBooks(l.db, l.incoming, peer, name);
    case Ask(peer) => TrustKeepsBooks(l.db, l.incoming, peer, PENDING);
    case Answer(peer, accept) =>
      AnswerKeepsBooks(l.db, l.incoming, peer);
      var db := l.db.(requests := Storage.Without(l.db.requests, peer));
      TrustKeepsBooks(db, l.incoming - {Hex(peer)}, peer, if accept then ACCEPTED else REJECTED);
    case Surface(peer, greeting, now) => SurfacingKeepsBooks(l, peer, greeting, now);
    case Respond(peer, accepted) =>
      TrustKeepsBooks(l.db, l.incoming, peer, if accepted then ACCEPTED else REJECTED);
    case _ =>
  }

  /** Every step keeps the books, a restart on the saved store included. */
  lemma StepKeepsBooks(c: Suite, e: Engine, x: Input)
    requires Books(e.db, e.incoming)
    ensures var f := EngineModel.Step(c, e, x).st; Books(f.db, f.incoming)
  {
    hide EngineModel.Step;
    hide Books;
    hide EffectOf;
    hide EngineLedger.Apply;
    StepHasItsEffect(c, e, x);
    EffectKeepsBooks(LedgerOf(e), EffectOf(c, e, x));
  }

  /** In every reachable state of every run that starts with sound books. */
  lemma {:induction false} BooksHold(c: Suite, first: Engine, run: seq<Entry>, n: nat)
    requires IsRun(c, first, run) && n <= |run| && Books(first.db, first.incoming)
    ensures var e := At(first, run, n); Books(e.db, e.incoming)
  {
    hide Books;
    hide EngineModel.Step;
    if n > 0 {
      BooksHold(c, first, run, n - 1);
      assert IsStep(c, first, run, n - 1);
      StepKeepsBooks(c, run[n - 1].pre, run[n - 1].x);
    }
  }

  // ---- acceptance provenance ------------------------------------------------

  /** add_peer, and it went through. */
  predicate Added(en: Entry, peer: Bytes) { en.x.AddPeer? && en.x.peer == peer && en.out.ret }

  /** accept_contact, past its pending-request check. */
  predicate AcceptedByUs(en: Entry, peer: Bytes)
  {
    en.x.AcceptContact? && en.x.peer == peer && Hex(peer) in en.pre.incoming && Hex(peer) !in en.out.st.incoming
  }

  predicate RequestSurfacedFrom(en: Entry, peer: Bytes)
  {
    en.out.event.Some? && en.out.event.value.RequestSurfaced? && en.out.event.value.peer == peer
  }

  /** send_contact_request, past its already-a-contact check. */
  predicate RequestedByUs(en: Entry, peer: Bytes)
  {
    en.x.SendContactRequest? && en.x.peer == peer &&
    Storage.TrustOf(en.pre.db, peer) != Some(ACCEPTED) && Hex(peer) in en.out.st.outgoing
  }

  predicate ResponseSurfacedFrom(en: Entry, peer: Bytes)
  {
    en.out.event.Some? && en.out.event.value.ResponseSurfaced? && en.out.event.value.peer == peer
  }

  /** A surfaced accept that opens under the key agreed with that very peer. */
  predicate AcceptedByPeer(c: Suite, en: Entry, peer: Bytes)
  {
    && en.out.event == Some(ResponseSurfaced(peer, true))
    && Polled(en.x).Some?
    && var p := Polled(en.x).value;
       var key := c.agree(en.pre.secret, peer);
       && p.kind == CONTACT_RESPONSE && p.source == peer && p.destination == en.pre.self
       && key.Some? && Opens(c, key.value, p, [ACCEPT])
  }

  /** The packet's payload opens, bound to its envelope, to a text that starts so. */
  predicate Opens(c: Suite, key: Bytes, p: Packet, start: Bytes)
  {
    var text := c.open(key, p.payload, AssociatedData(p));
    text.Some? && start <= text.value
  }

  /** A reason for the peer to be a contact within the first n steps. */
  ghost predicate Vouched(c: Suite, run: seq<Entry>, n: nat, peer: Bytes)
    requires n <= |run|
  {
    exists i :: 0 <= i < n && Voucher(c, run, i, peer)
  }

  /** Step i is the reason: we added the peer; or we accepted it after its request
      was surfaced; or it accepted our earlier request. */
  ghost predicate Voucher(c: Suite, run: seq<Entry>, i: nat, peer: Bytes)
    requires i < |run|
  {
    || Added(run[i], peer)
    || (AcceptedByUs(run[i], peer) && exists j :: 0 <= j < i && RequestSurfacedFrom(run[j], peer))
    || (AcceptedByPeer(c, run[i], peer) && exists j :: 0 <= j < i && RequestedByUs(run[j], peer))
  }

  /** The only effects that make a peer accepted. */
  lemma AcceptingEffects(l: Ledger, f: Effect, peer: Bytes)
    requires Storage.TrustOf(l.db, peer) != Some(ACCEPTED)
    requires Storage.TrustOf(Apply(l, f).db, peer) == Some(ACCEPTED)
    ensures f == Trust(peer) || f == Answer(peer, true) || f == Respond(peer, true)
  {
    hide Storage.Find;
    hide Storage.Without;
    hide Hex;
  }

  lemma PendingEffects(l: Ledger, f: Effect, peer: Bytes)
    requires Books(l.db, l.incoming)
    ensures Hex(peer) in Apply(l, f).incoming && Hex(peer) !in l.incoming ==> f.Surface? && f.peer == peer
    ensures Hex(peer) in Apply(l, f).outgoing && Hex(peer) !in l.outgoing ==> f == Ask(peer)
  {
    HexKeysAreFaithful();
  }

  /** What a step with a given effect looks like from outside. */
  lemma EffectIsVisible(c: Suite, e: Engine, x: Input, peer: Bytes)
    requires Sound(c, e, peer)
    ensures var en := Entry(e, x, EngineModel.Step(c, e, x));
            var f := EffectOf(c, e, x);
            && (f == Trust(peer) ==> Added(en, peer))
            && (f == Answer(peer, true) ==> AcceptedByUs(en, peer))
            && (f.Surface? && f.peer == peer ==> RequestSurfacedFrom(en, peer))
            && (f == Ask(peer) ==> RequestedByUs(en, peer))
            && (f == Respond(peer, true) ==> AcceptedByPeer(c, en, peer))
  {
    hide EngineModel.Step;
    hide Parse;
    hide AssociatedData;
    hide Hex;
    hide SetTrust;
    hide Rename;
    StepHasItsEffect(c, e, x);
    var f := EffectOf(c, e, x);
    if f == Respond(peer, true) {
      AdmissionUsesSession(c, e, Polled(x).value, peer);
    }
    if f == Trust(peer) { AddingReturns(c, e, x); }
  }

  lemma AddingReturns(c: Suite, e: Engine, x: Input)
    requires x.AddPeer? && HasSession(c, e, x.peer)
    ensures EngineModel.Step(c, e, x).ret
  {
  }

  /** The run up to step n accounts for what the state after it says of the peer. */
  ghost predicate Accounted(c: Suite, first: Engine, run: seq<Entry>, n: nat, peer: Bytes)
    requires n <= |run|
  {
    var e := At(first, run, n);
    && (Storage.TrustOf(e.db, peer) == Some(ACCEPTED) ==> Vouched(c, run, n, peer))
    && (Hex(peer) in e.incoming ==> exists j :: 0 <= j < n && RequestSurfacedFrom(run[j], peer))
    && (Hex(peer) in e.outgoing ==> exists j :: 0 <= j < n && RequestedByUs(run[j], peer))
  }

  lemma {:induction false} AccountsHold(c: Suite, first: Engine, run: seq<Entry>, n: nat, peer: Bytes)
    requires IsRun(c, first, run) && n <= |run|
    requires first == Boot(first.self, first.secret, EMPTY)
    ensures Accounted(c, first, run, n, peer)
  {
    hide EngineModel.Step;
    hide EffectOf;
    hide EngineLedger.Apply;
    hide Hex;
    if n > 0 {
      AccountsHold(c, first, run, n - 1, peer);
      assert IsStep(c, first, run, n - 1);
      BooksHold(c, first, run, n - 1);
      SoundHolds(c, first, run, peer, n - 1);
      var e, x := run[n - 1].pre, run[n - 1].x;
      var l, f := LedgerOf(e), EffectOf(c, e, x);
      assert run[n - 1] == Entry(e, x, EngineModel.Step(c, e, x));
      StepHasItsEffect(c, e, x);
      EffectIsVisible(c, e, x, peer);
      PendingEffects(l, f, peer);
      if Storage.TrustOf(e.db, peer) != Some(ACCEPTED) && Storage.TrustOf(Apply(l, f).db, peer) == Some(ACCEPTED) {
        AcceptingEffects(l, f, peer);
      }
      AccountStep(c, first, run, n, peer);
    }
  }

  lemma AccountStep(c: Suite, first: Engine, run: seq<Entry>, n: nat, peer: Bytes)
    requires 0 < n <= |run| && run[n - 1].pre == At(first, run, n - 1)
    requires Accounted(c, first, run, n - 1, peer)
    requires var en := run[n - 1];
             && (Storage.TrustOf(en.out.st.db, peer) == Some(ACCEPTED) ==>
                   Storage.TrustOf(en.pre.db, peer) == Some(ACCEPTED) || Added(en, peer) ||
                   AcceptedByUs(en, peer) || (AcceptedByPeer(c, en, peer) && Hex(peer) in en.pre.outgoing))
             && (Hex(peer) in en.out.st.incoming ==> Hex(peer) in en.pre.incoming || RequestSurfacedFrom(en, peer))
             && (Hex(peer) in en.out.st.outgoing ==> Hex(peer) in en.pre.outgoing || RequestedByUs(en, peer))
    ensures Accounted(c, first, run, n, peer)
  {
    hide Added;
    hide AcceptedByPeer;
    hide RequestSurfacedFrom;
    hide RequestedByUs;
    hide Storage.TrustOf;
    hide Hex;
    var en := run[n - 1];
    if Storage.TrustOf(en.out.st.db, peer) == Some(ACCEPTED) {
      if Storage.TrustOf(en.pre.db, peer) == Some(ACCEPTED) {
        var i :| 0 <= i < n - 1 && Voucher(c, run, i, peer);
      } else {
        assert Voucher(c, run, n - 1, peer);
      }
    }
  }

  /** From an empty store, whoever is accepted after n steps was vouched for. */
  lemma AcceptanceProvenance(c: Suite, self: Bytes, secret: Bytes, run: seq<Entry>, n: nat, peer: Bytes)
    requires IsRun(c, Boot(self, secret, EMPTY), run) && n <= |run|
    requires Storage.TrustOf(At(Boot(self, secret, EMPTY), run, n).db, peer) == Some(ACCEPTED)
    ensures Vouched(c, run, n, peer)
  {
    AccountsHold(c, Boot(self, secret, EMPTY), run, n, peer);
  }

  /** And a message is delivered only from a peer vouched for before it arrived. */
  lemma DeliveryProvenance(c: Suite, self: Bytes, secret: Bytes, run: seq<Entry>, i: nat, peer: Bytes, text: Bytes)
    requires IsRun(c, Boot(self, secret, EMPTY), run) && i < |run|
    requires run[i].out.event == Some(MessageDelivered(peer, text))
    ensures Vouched(c, run, i, peer)
  {
    hide EngineModel.Step;
    hide EffectOf;
    var first := Boot(self, secret, EMPTY);
    assert IsStep(c, first, run, i);
    StepHasItsEffect(c, run[i].pre, run[i].x);
    AcceptanceProvenance(c, self, secret, run, i, peer);
  }

  // ---- conservation of requests and responses -------------------------------

  function CountSurfaced(run: seq<Entry>, n: nat, peer: Bytes): nat
    requires n <= |run|
  {
    if n == 0 then 0
    else CountSurfaced(run, n - 1, peer) + if RequestSurfacedFrom(run[n - 1], peer) then 1 else 0
  }

  function CountRequested(run: seq<Entry>, n: nat, peer: Bytes): nat
    requires n <= |run|
  {
    if n == 0 then 0
    else CountRequested(run, n - 1, peer) + if RequestedByUs(run[n - 1], peer) then 1 else 0
  }

  function CountResponses(run: seq<Entry>, n: nat, peer: Bytes): nat
    requires n <= |run|
  {
    if n == 0 then 0
    else CountResponses(run, n - 1, peer) + if ResponseSurfacedFrom(run[n - 1], peer) then 1 else 0
  }

  lemma KnownStaysKnown(l: Ledger, f: Effect, peer: Bytes)
    ensures Storage.TrustOf(l.db, peer).Some? ==> Storage.TrustOf(Apply(l, f).db, peer).Some?
    ensures f.Surface? && f.peer == peer ==> Storage.TrustOf(Apply(l, f).db, peer).Some?
  {
    hide Storage.Find;
    hide Storage.Without;
    hide Hex;
  }

  /** A peer's contact request is surfaced at most once, restarts included, and
      never for a peer the store already knew. */
  lemma {:induction false} OneRequestPerPeer(c: Suite, first: Engine, run: seq<Entry>, n: nat, peer: Bytes)
    requires IsRun(c, first, run) && n <= |run|
    ensures CountSurfaced(run, n, peer) + (if Storage.TrustOf(first.db, peer).Some? then 1 else 0)
         <= if Storage.TrustOf(At(first, run, n).db, peer).Some? then 1 else 0
  {
    hide EngineModel.Step;
    hide EffectOf;
    hide EngineLedger.Apply;
    if n > 0 {
      OneRequestPerPeer(c, first, run, n - 1, peer);
      assert IsStep(c, first, run, n - 1);
      var e, x := run[n - 1].pre, run[n - 1].x;
      StepHasItsEffect(c, e, x);
      KnownStaysKnown(LedgerOf(e), EffectOf(c, e, x), peer);
    }
  }

  lemma OutgoingEffects(l: Ledger, f: Effect, peer: Bytes)
    requires Allowed(l, f)
    ensures f.Respond? && f.peer == peer ==> Hex(peer) in l.outgoing && Hex(peer) !in Apply(l, f).outgoing
    ensures Hex(peer) in Apply(l, f).outgoing && Hex(peer) !in l.outgoing ==> f == Ask(peer)
  {
    HexKeysAreFaithful();
    hide SetTrust;
    hide Rename;
    hide Hex;
  }

  /** Every response surfaced from a peer, and the request still open to it, is
      paid for by its own send_contact_request. */
  lemma {:induction false} ResponsesNeedRequests(c: Suite, first: Engine, run: seq<Entry>, n: nat, peer: Bytes)
    requires IsRun(c, first, run) && n <= |run|
    requires first.outgoing == {} && Sound(c, first, peer)
    ensures CountResponses(run, n, peer) + (if Hex(peer) in At(first, run, n).outgoing then 1 else 0)
         <= CountRequested(run, n, peer)
  {
    hide EngineModel.Step;
    hide EffectOf;
    hide EngineLedger.Apply;
    hide RequestedByUs;
    hide Sound;
    hide Hex;
    if n > 0 {
      ResponsesNeedRequests(c, first, run, n - 1, peer);
      assert IsStep(c, first, run, n - 1);
      var e, x := run[n - 1].pre, run[n - 1].x;
      SoundHolds(c, first, run, peer, n - 1);
      StepHasItsEffect(c, e, x);
      EffectIsVisible(c, e, x, peer);
      assert run[n - 1] == Entry(e, x, EngineModel.Step(c, e, x));
      OutgoingEffects(LedgerOf(e), EffectOf(c, e, x), peer);
    }
  }
}
