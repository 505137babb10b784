/** What the engine keeps of a contact besides its trust: the name it was last given and
    when it was last seen, whatever happens to the trust in between. */
module EngineContacts {
  import opened Octets
  import opened HexKeys
  import opened StoreCodec
  import opened Crypto
  import opened EngineModel
  import opened EngineLedger
  import Storage

  function NicknameOf(db: Db, peer: Bytes): Bytes
  {
    match Storage.Find(db.contacts, peer)
    case None => []
    case Some(contact) => contact.nickname
  }

  function SeenOf(db: Db, peer: Bytes): i64
  {
    match Storage.Find(db.contacts, peer)
    case None => 0
    case Some(contact) => contact.lastSeen
  }

  /** The name a step gives the peer: by set_nickname, or by a surfaced greeting. */
  function GivenName(en: Entry, peer: Bytes): Option<Bytes>
  {
    if en.x.SetNickname? && en.x.peer == peer then Some(en.x.name)
    else match en.out.event
      case Some(RequestSurfaced(from, greeting)) => if from == peer && greeting != [] then Some(greeting) else None
      case _ => None
  }

  /** The last name given within the first n steps, else what the store held. */
  function NameAt(first: Engine, run: seq<Entry>, n: nat, peer: Bytes): Bytes
    requires n <= |run|
  {
    if n == 0 then NicknameOf(first.db, peer)
    else match GivenName(run[n - 1], peer)
      case Some(name) => name
      case None => NameAt(first, run, n - 1, peer)
  }

  lemma TrustKeepsName(db: Db, other: Bytes, trust: byte, peer: Bytes)
    ensures var r := SetTrust(db, other, trust);
            NicknameOf(r, peer) == NicknameOf(db, peer) && SeenOf(r, peer) == SeenOf(db, peer)
  {
    hide Storage.Find;
    hide Storage.Upsert;
  }

  lemma RenamingNames(db: Db, other: Bytes, name: Bytes, peer: Bytes)
    ensures var r := Rename(db, other, name);
            && NicknameOf(r, peer) == (if other == peer then name else NicknameOf(db, peer))
            && SeenOf(r, peer) == SeenOf(db, peer)
  {
    hide Storage.Find;
    hide Storage.Upsert;
  }

  lemma OnlyContactsMatter(db: Db, other: Db, peer: Bytes)
    requires db.contacts == other.contacts
    ensures NicknameOf(db, peer) == NicknameOf(other, peer) && SeenOf(db, peer) == SeenOf(other, peer)
  {
  }

  /** What an effect does to the name. */
  lemma EffectNames(l: Ledger, f: Effect, peer: Bytes)
    ensures var m := Apply(l, f);
            && SeenOf(m.db, peer) == SeenOf(l.db, peer)
            && NicknameOf(m.db, peer) ==
                 if f.Name? && f.peer == peer then f.name
                 else if f.Surface? && f.peer == peer && f.greeting != [] then f.greeting
                 else NicknameOf(l.db, peer)
  {
    hide SetTrust;
    hide Rename;
    hide NicknameOf;
    hide SeenOf;
    hide Hex;
    match f
    case Trust(p) => TrustKeepsName(l.db, p, ACCEPTED, peer);
    case Ask(p) => TrustKeepsName(l.db, p, PENDING, peer);
    case Name(p, name) => RenamingNames(l.db, p, name, peer);
    case Respond(p, accepted) => TrustKeepsName(l.db, p, if accepted then ACCEPTED else REJECTED, peer);
    case Answer(p, accept) =>
      var db := l.db.(requests := Storage.Without(l.db.requests, p));
      OnlyContactsMatter(l.db, db, peer);
      TrustKeepsName(db, p, if accept then ACCEPTED else REJECTED, peer);
    case Log(m) => OnlyContactsMatter(l.db, Apply(l, f).db, peer);
    case Surface(p, greeting, now) =>
      TrustKeepsName(l.db, p, PENDING, peer);
      var db1 := SetTrust(l.db, p, PENDING);
      RenamingNames(db1, p, greeting, peer);
      var db2 := if greeting == [] then db1 else Rename(db1, p, greeting);
      OnlyContactsMatter(db2, Storage.Apply(db2, Storage.AddRequest(Request(p, greeting, now))), peer);
    case _ =>
  }

  lemma StepNames(c: Suite, e: Engine, x: Input, peer: Bytes)
    ensures var o := EngineModel.Step(c, e, x);
            && SeenOf(o.st.db, peer) == SeenOf(e.db, peer)
            && NicknameOf(o.st.db, peer) ==
                 match GivenName(Entry(e, x, o), peer) case Some(name) => name case None => NicknameOf(e.db, peer)
  {
    hide EngineModel.Step;
    hide EngineLedger.Apply;
    hide Allowed;
    hide HasSession;
    hide Admit;
    hide Polled;
    hide NicknameOf;
    hide SeenOf;
    StepHasItsEffect(c, e, x);
    EffectNames(LedgerOf(e), EffectOf(c, e, x), peer);
  }

  /** Over any run, restarts included, a contact has the name it was last given, by
      set_nickname or by the greeting of its surfaced request, and the last-seen time the
      store held; no trust change, request or response touches either. */
  lemma {:induction false} NamesAreKept(c: Suite, first: Engine, run: seq<Entry>, n: nat, peer: Bytes)
    requires IsRun(c, first, run) && n <= |run|
    ensures NicknameOf(At(first, run, n).db, peer) == NameAt(first, run, n, peer)
    ensures SeenOf(At(first, run, n).db, peer) == SeenOf(first.db, peer)
  {
    hide EngineModel.Step;
    hide NicknameOf;
    hide SeenOf;
    hide GivenName;
    if n > 0 {
      NamesAreKept(c, first, run, n - 1, peer);
      assert IsStep(c, first, run, n - 1);
      assert run[n - 1] == Entry(run[n - 1].pre, run[n - 1].x, run[n - 1].out);
      StepNames(c, run[n - 1].pre, run[n - 1].x, peer);
    }
  }
}
