/** The Store object: the loops and in-place updates of store.cpp, each proved to
    take one step of the Storage machine. */
module StoreObject {
  import opened Octets
  import opened StoreCodec
  import opened Crypto
  import Blob
  import Storage

  /** One file that outlives the process.  Replacing it is atomic and may fail. */
  class Disk {
    var file: Option<Bytes>

    method Replace(content: Bytes) returns (ok: bool)
      modifies this
      ensures file == if ok then Some(content) else old(file)
    {
      ok := *;
      if ok { file := Some(content); }
    }
  }

  class Store {
    const suite: Suite
    const disk: Disk

    var contacts: seq<Contact>
    var messages: seq<Message>
    var requests: seq<Request>
    var persistent: bool
    var salt: Bytes
    var key: Bytes

    /** The state when the store was made or last opened, and what was done since. */
    ghost var start: Storage.State
    ghost var writes: seq<Storage.Write>

    function Db(): Db
      reads this
    {
      StoreCodec.Db(contacts, messages, requests)
    }

    ghost function View(): Storage.State
      reads this, disk
    {
      Storage.State(Db(), persistent, salt, key, disk.file)
    }

    /** The object is where a run of the machine would be. */
    ghost predicate Valid()
      reads this, disk
    {
      View() == Storage.After(suite, start, writes)
    }

    constructor (suite: Suite, disk: Disk)
      ensures this.suite == suite && this.disk == disk
      ensures Valid() && writes == [] && View() == Storage.State(EMPTY, false, [], [], disk.file)
    {
      this.suite, this.disk := suite, disk;
      contacts, messages, requests := [], [], [];
      persistent, salt, key := false, [], [];
      start := Storage.State(EMPTY, false, [], [], disk.file);
      writes := [];
    }

    method Save() returns (ok: bool, ghost io: Storage.Io)
      modifies disk
      ensures (View(), ok) == Storage.Save(suite, old(View()), io)
    {
      var nonce: Bytes := *;
      ok, io := false, Storage.Io(nonce, false);
      if !persistent { return; }
      var plaintext := Blob.EncodeDb(Db());
      if |salt| != Blob.SALT_BYTES || |key| != SESSION_KEY_BYTES { return; }
      var out := Blob.DB_MAGIC + [Blob.FILE_VERSION] + salt;
      var sealed := suite.seal(key, nonce, plaintext, out);
      if |sealed| == 0 { return; }
      ok := disk.Replace(out + sealed);
      io := Storage.Io(nonce, ok);
    }

    /** Save if the store is persistent, and put the operation on record. */
    method Persist(ghost op: Storage.Op, ghost before: Storage.State)
      requires before == Storage.After(suite, start, writes)
      requires View() == before.(db := Storage.Apply(before.db, op)) && Storage.Saves(before.db, op)
      modifies this`writes, disk
      ensures Valid() && Recorded(before, old(writes), op)
    {
      ghost var io := Storage.NOT_TRIED;
      if persistent {
        var saved;
        saved, io := Save();
      }
      Record(before, op, io);
    }

    /** The operation and how its write fared are the one new entry of the record;
        a write that was skipped is down as not tried. */
    ghost predicate Recorded(before: Storage.State, earlier: seq<Storage.Write>, op: Storage.Op)
      reads this, disk
    {
      && |writes| == |earlier| + 1 && writes[..|earlier|] == earlier && writes[|earlier|].op == op
      && View() == Storage.Step(suite, before, op, writes[|earlier|].io)
      && ((before.persistent && Storage.Saves(before.db, op)) || writes[|earlier|].io == Storage.NOT_TRIED)
    }

    ghost method Record(before: Storage.State, op: Storage.Op, io: Storage.Io)
      requires before == Storage.After(suite, start, writes) && View() == Storage.Step(suite, before, op, io)
      requires (before.persistent && Storage.Saves(before.db, op)) || io == Storage.NOT_TRIED
      modifies this`writes
      ensures Valid() && Recorded(before, old(writes), op)
    {
      writes := writes + [Storage.Write(op, io)];
      assert writes[..|writes| - 1] == old(writes);
    }

    method AddContact(c: Contact)
      requires Valid()
      modifies this, disk
      ensures Valid() && start == old(start) && Recorded(old(View()), old(writes), Storage.AddContact(c))
      ensures Db() == old(Db()).(contacts := old(contacts) + [c])
    {
      ghost var before := View();
      contacts := contacts + [c];
      Persist(Storage.AddContact(c), before);
    }

    method Upsert(c: Contact)
      requires Valid()
      modifies this, disk
      ensures Valid() && start == old(start) && Recorded(old(View()), old(writes), Storage.UpsertOp(c))
      ensures Db() == Storage.UpsertContact(old(Db()), c)
    {
      ghost var before := View();
      for i := 0 to |contacts|
        invariant View() == before && Valid() && start == old(start) && writes == old(writes)
        invariant forall j :: 0 <= j < i ==> contacts[j].publicKey != c.publicKey
      {
        if contacts[i].publicKey == c.publicKey {
          Storage.UpsertAt(contacts, c, i);
          contacts := contacts[i := c];
          Persist(Storage.UpsertOp(c), before);
          return;
        }
      }
      Storage.UpsertAt(contacts, c, |contacts|);
      contacts := contacts + [c];
      Persist(Storage.UpsertOp(c), before);
    }

    method Find(publicKey: Bytes) returns (r: Option<Contact>)
      ensures r == Storage.Find(contacts, publicKey)
    {
      var i := 0;
      while i < |contacts|
        invariant 0 <= i <= |contacts|
        invariant Storage.Find(contacts[i..], publicKey) == Storage.Find(contacts, publicKey)
      {
        if contacts[i].publicKey == publicKey { return Some(contacts[i]); }
        assert contacts[i..][1..] == contacts[i + 1..];
        i := i + 1;
      }
      return None;
    }

    method TrustOf(publicKey: Bytes) returns (r: Option<byte>)
      ensures r == Storage.TrustOf(Db(), publicKey)
    {
      var c := Find(publicKey);
      match c
      case None => return None;
      case Some(found) => return Some(found.trust);
    }

    method AppendMessage(m: Message)
      requires Valid()
      modifies this, disk
      ensures Valid() && start == old(start) && Recorded(old(View()), old(writes), Storage.AppendMessage(m))
      ensures Db() == old(Db()).(messages := old(messages) + [m])
    {
      ghost var before := View();
      messages := messages + [m];
      Persist(Storage.AppendMessage(m), before);
    }

    method AddRequest(q: Request)
      requires Valid()
      modifies this, disk
      ensures Valid() && start == old(start) && Recorded(old(View()), old(writes), Storage.AddRequest(q))
      ensures Db() == Storage.Apply(old(Db()), Storage.AddRequest(q))
      ensures var known := exists i :: 0 <= i < |old(requests)| && old(requests)[i].peer == q.peer;
              Db() == old(Db()).(requests := if known then old(requests) else old(requests) + [q])
    {
      ghost var before := View();
      for i := 0 to |requests|
        invariant View() == before && Valid() && start == old(start) && writes == old(writes)
        invariant forall j :: 0 <= j < i ==> requests[j].peer != q.peer
      {
        if requests[i].peer == q.peer {
          Record(before, Storage.AddRequest(q), Storage.NOT_TRIED);
          return;
        }
      }
      requests := requests + [q];
      Persist(Storage.AddRequest(q), before);
    }

    static method RemoveIf(qs: seq<Request>, peer: Bytes) returns (kept: seq<Request>)
      ensures kept == Storage.Without(qs, peer)
    {
      kept := [];
      for i := 0 to |qs|
        invariant kept + Storage.Without(qs[i..], peer) == Storage.Without(qs, peer)
      {
        assert qs[i..][1..] == qs[i + 1..];
        if qs[i].peer != peer { kept := kept + [qs[i]]; }
      }
    }

    method RemoveRequest(peer: Bytes)
      requires Valid()
      modifies this, disk
      ensures Valid() && start == old(start) && Recorded(old(View()), old(writes), Storage.RemoveRequest(peer))
      ensures Db() == old(Db()).(requests := Storage.Without(old(requests), peer))
    {
      ghost var before := View();
      var size := |requests|;
      requests := RemoveIf(requests, peer);
      if persistent && |requests| != size {
        Persist(Storage.RemoveRequest(peer), before);
      } else {
        Record(before, Storage.RemoveRequest(peer), Storage.NOT_TRIED);
      }
    }

    /** Load an existing file or create one.  The store restarts its record. */
    method Open(passphrase: Bytes) returns (ok: bool, ghost freshSalt: Bytes, ghost io: Storage.Io)
      requires Valid()
      modifies this, disk
      ensures Valid() && writes == [] && start == View()
      ensures (View(), ok) == Storage.Open(suite, old(View()), passphrase, freshSalt, io)
    {
      hide Storage.Load;
      freshSalt, io := [], Storage.Io([], false);
      ok := false;
      if disk.file.Some? {
        var loaded := LoadFile(disk.file.value, passphrase);
        if loaded.Some? {
          var (db, s, k) := loaded.value;
          contacts, messages, requests := db.contacts, db.messages, db.requests;
          salt, key, persistent := s, k, true;
          ok := true;
        }
      } else {
        var newSalt: Bytes := *;
        freshSalt := newSalt;
        var k := suite.derive(passphrase, newSalt);
        if |k| != 0 {
          salt, key, persistent := newSalt, k, true;
          ok, io := Save();
        }
      }
      start, writes := View(), [];
    }

    method LoadFile(file: Bytes, passphrase: Bytes) returns (r: Option<(Db, Bytes, Bytes)>)
      ensures r == Storage.Load(suite, file, passphrase)
    {
      if |file| < Blob.FILE_HEADER_SIZE || file[..4] != Blob.DB_MAGIC || file[4] != Blob.FILE_VERSION {
        return None;
      }
      var s := file[5..5 + Blob.SALT_BYTES];
      var k := suite.derive(passphrase, s);
      if |k| == 0 { return None; }
      var plaintext := suite.open(k, file[Blob.FILE_HEADER_SIZE..], file[..Blob.FILE_HEADER_SIZE]);
      if plaintext.None? { return None; }
      var ok, db := Blob.DecodeDb(plaintext.value);
      if !ok { return None; }
      return Some((db, s, k));
    }

    method Conversation(peer: Bytes) returns (out: seq<Message>)
      ensures out == Storage.ConversationWith(messages, peer)
    {
      out := [];
      for i := 0 to |messages|
        invariant out == Storage.ConversationWith(messages[..i], peer)
      {
        assert messages[..i + 1][..i] == messages[..i];
        if messages[i].peer == peer { out := out + [messages[i]]; }
      }
      assert messages[..|messages|] == messages;
    }
  }
}
