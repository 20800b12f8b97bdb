/** The media store itself: tables changed in place, one method per operation, each proved to do
    what the transaction of the same name in MediaSpec says. */
module MediaStore {
  import opened Options
  import opened MediaSpec
  import opened MediaInvariant
  import opened MediaBudget

  /** complete without interference: seal, read every chunk, publish. */
  ghost function CompleteTx(
    db: Db, cfg: Config, now: nat, actor: string, id: string, detected: Option<string>, media: string)
    : (r: (Db, Reply))
  {
    var (db', reply) := BeginCompleteTx(db, cfg, now, actor, id);
    if !reply.Reading? then (db', reply)
    else
      var n := reply.call.status.nextChunk;
      FinishCompleteTx(db', cfg, now, reply.call.(index := n, content := Content(db', id, n)), detected, media)
  }

  /** The unique index on owner and request. */
  ghost predicate UniqueRequests(db: Db) {
    forall owner, request, a, b :: HasRequest(db, owner, request, a) && HasRequest(db, owner, request, b) ==> a == b
  }

  class MediaStore {
    const cfg: Config
    var uploads: map<string, Upload>
    var chunks: map<ChunkKey, Bytes>
    var objects: map<string, Media>
    var members: set<(string, string)>

    ghost function Tables(): Db
      reads this
    {
      Db(uploads, chunks, objects, members)
    }

    ghost predicate Valid()
      reads this
    {
      ValidLimits(cfg.limits) && StoreOk(Tables()) && BudgetOk(Tables(), cfg) && UniqueRequests(Tables())
    }

    constructor (limits: Limits, channels: Option<set<string>>, members: set<(string, string)>)
      requires ValidLimits(limits)
      ensures Valid() && cfg == Config(limits, channels) && Tables() == Db(map[], map[], map[], members)
    {
      cfg := Config(limits, channels);
      uploads, chunks, objects, this.members := map[], map[], map[], members;
      new;
      hide BudgetOk;
      EmptyBudget(Tables(), cfg);
    }

    method Visible(now: nat, actor: string, id: string) returns (row: Option<Upload>)
      ensures row == ReadUpload(Tables(), cfg, now, actor, id)
    {
      if id !in uploads || uploads[id].owner != actor || (uploads[id].channel, actor) !in members { return None; }
      var found := uploads[id];
      if found.state != Complete && found.expires <= now { return None; }
      if !Enabled(cfg, found.channel) { return None; }
      row := Some(found);
    }

    method UploadByRequest(actor: string, request: string) returns (found: Option<string>)
      requires Valid()
      ensures found == ByRequest(Tables(), actor, request)
    {
      hide StoreOk, BudgetOk;
      var rest := uploads.Keys;
      while rest != {}
        invariant rest <= uploads.Keys
        invariant forall id :: HasRequest(Tables(), actor, request, id) ==> id in rest
        decreases rest
      {
        var id :| id in rest;
        if uploads[id].owner == actor && uploads[id].request == request {
          assert HasRequest(Tables(), actor, request, id);
          return Some(id);
        }
        rest := rest - {id};
      }
      found := None;
    }

    /** The entries of a ledger that count for an owner, or for everybody. */
    static ghost function Part(m: map<Item, Entry>, owner: Option<string>): map<Item, Entry> {
      if owner.None? then m else OfOwner(m, owner.value)
    }

    /** Sum of the charges of stored objects and unfinished uploads. */
    method Reserved(owner: Option<string>) returns (total: nat)
      ensures total == Sum(Part(Ledger(Tables()), owner))
    {
      ghost var counted: map<Item, Entry> := map[];
      total := 0;
      var rest := uploads.Keys;
      while rest != {}
        invariant rest <= uploads.Keys && total == Sum(counted)
        invariant forall i :: i in counted <==> CountedUpload(Tables(), owner, rest, i)
        invariant forall i :: i in counted ==> EntryOf(Tables(), i) == Some(counted[i])
        decreases rest
      {
        var id :| id in rest;
        var row := uploads[id];
        rest := rest - {id};
        if row.state != Complete && (owner.None? || owner.value == row.owner) {
          SumInsert(counted, OfUpload(id), Entry(row.owner, Charge(row.size)));
          counted := counted[OfUpload(id) := Entry(row.owner, Charge(row.size))];
          total := total + Charge(row.size);
        }
      }
      var left := objects.Keys;
      while left != {}
        invariant left <= objects.Keys && total == Sum(counted)
        invariant forall i :: i in counted <==>
          CountedUpload(Tables(), owner, {}, i) || CountedObject(Tables(), owner, left, i)
        invariant forall i :: i in counted ==> EntryOf(Tables(), i) == Some(counted[i])
        decreases left
      {
        var id :| id in left;
        var object' := objects[id];
        left := left - {id};
        if owner.None? || owner.value == object'.owner {
          SumInsert(counted, OfObject(id), Entry(object'.owner, Charge(object'.size)));
          counted := counted[OfObject(id) := Entry(object'.owner, Charge(object'.size))];
          total := total + Charge(object'.size);
        }
      }
      CountedIsLedger(Tables(), owner, counted);
    }

    static ghost predicate CountedUpload(db: Db, owner: Option<string>, rest: set<string>, i: Item) {
      && i.OfUpload? && i.id !in rest && EntryOf(db, i).Some?
      && (owner.None? || EntryOf(db, i).value.owner == owner.value)
    }

    static ghost predicate CountedObject(db: Db, owner: Option<string>, rest: set<string>, i: Item) {
      && i.OfObject? && i.id !in rest && EntryOf(db, i).Some?
      && (owner.None? || EntryOf(db, i).value.owner == owner.value)
    }

    static lemma CountedIsLedger(db: Db, owner: Option<string>, counted: map<Item, Entry>)
      requires forall i :: i in counted <==> CountedUpload(db, owner, {}, i) || CountedObject(db, owner, {}, i)
      requires forall i :: i in counted ==> EntryOf(db, i) == Some(counted[i])
      ensures counted == Part(Ledger(db), owner)
    {
      hide Ledger, EntryOf;
      var m := Part(Ledger(db), owner);
      forall i ensures i in counted <==> i in m { LedgerEntry(db, i); }
      forall i | i in counted ensures counted[i] == m[i] { LedgerEntry(db, i); }
    }

    method Create(now: nat, actor: string, channel: string, input: NewUpload, id: string) returns (reply: Reply)
      requires Valid() && id !in uploads
      modifies this`uploads
      ensures Valid() && (Tables(), reply) == CreateTx(old(Tables()), cfg, now, actor, channel, input, id)
    {
      hide StoreOk, BudgetOk, UniqueRequests, WithinBudget, Accepted;
      CreateKeeps(Tables(), cfg, now, actor, channel, input, id);
      CreateWithinBudget(Tables(), cfg, now, actor, channel, input, id);
      if !Enabled(cfg, channel) { return Refused(NotFound); }
      if !Accepted(input.contentType) { return Refused(Unsupported); }
      if !WellNamed(cfg, input) { return Refused(Invalid); }
      if (channel, actor) !in members { return Refused(NotFound); }
      var previous := UploadByRequest(actor, input.request);
      if previous.Some? {
        var row := Visible(now, actor, previous.value);
        if row.None? { return Refused(NotFound); }
        if row.value.channel != channel || row.value.size != input.size || row.value.filename != input.filename
           || row.value.declared != input.contentType {
          return Refused(Conflict);
        }
        return Status(row.value);
      }
      var fits := Budgeted(actor, input.size);
      if !fits { return Refused(Quota); }
      var row := Upload(actor, channel, input.request, input.filename, input.contentType, input.size, 0, 0, Open,
        now + UPLOAD_TTL, None);
      uploads := uploads[id := row];
      NewRequest(old(Tables()), Tables(), id);
      reply := Status(row);
    }

    method Budgeted(actor: string, size: nat) returns (fits: bool)
      ensures fits <==> WithinBudget(Tables(), cfg, actor, size)
    {
      var active := set id | id in uploads && uploads[id].state != Complete;
      var own := set id | id in uploads && uploads[id].state != Complete && uploads[id].owner == actor;
      assert active == Active(Tables()) && own == ActiveOf(Tables(), actor);
      if |active| >= MAX_ACTIVE || |own| >= MAX_OWNER_ACTIVE { return false; }
      var total := Reserved(None);
      var owned := Reserved(Some(actor));
      fits := SaturatingAdd(total, Charge(size)) <= cfg.limits.total
        && SaturatingAdd(owned, Charge(size)) <= cfg.limits.owner;
    }

    static lemma NewRequest(db: Db, db': Db, id: string)
      requires id !in db.uploads && id in db'.uploads && db'.uploads == db.uploads[id := db'.uploads[id]]
      requires ByRequest(db, db'.uploads[id].owner, db'.uploads[id].request).None?
      requires UniqueRequests(db)
      ensures UniqueRequests(db')
    {
      assert forall o, q, a :: a != id && HasRequest(db', o, q, a) ==> HasRequest(db, o, q, a);
    }

    method PutChunk(
      now: nat, actor: string, id: string, index: nat, bytes: Bytes, claimed: Sha256)
      returns (reply: Reply)
      requires Valid()
      modifies this`uploads, this`chunks
      ensures Valid() && (Tables(), reply) == PutTx(old(Tables()), cfg, now, actor, id, index, bytes, claimed)
    {
      hide StoreOk, BudgetOk, UniqueRequests, Later;
      PutKeeps(Tables(), cfg, now, actor, id, index, bytes, claimed);
      PutKeepsBudget(Tables(), cfg, now, actor, id, index, bytes, claimed);
      if bytes == [] || |bytes| > CHUNK || Sha256(bytes) != claimed { return Refused(Invalid); }
      var visible := Visible(now, actor, id);
      if visible.None? { return Refused(NotFound); }
      var row := visible.value;
      if row.state != Open || index > row.nextChunk { return Refused(Conflict); }
      var offset := index * CHUNK;
      if offset >= row.size || |bytes| != Min(row.size - offset, CHUNK) { return Refused(Invalid); }
      if index < row.nextChunk {
        if ChunkKey(id, index) !in chunks || chunks[ChunkKey(id, index)] != bytes { return Refused(Conflict); }
        return Status(row);
      }
      chunks := chunks[ChunkKey(id, index) := bytes];
      uploads := uploads[id := row.(nextChunk := row.nextChunk + 1, received := row.received + |bytes|)];
      SameRequests(old(Tables()), Tables());
      reply := Status(uploads[id]);
    }

    /** No row changed the request it answers and none was added. */
    static lemma SameRequests(db: Db, db': Db)
      requires db'.uploads.Keys <= db.uploads.Keys
      requires forall id :: id in db'.uploads ==>
        db'.uploads[id].owner == db.uploads[id].owner && db'.uploads[id].request == db.uploads[id].request
      requires UniqueRequests(db)
      ensures UniqueRequests(db')
    {
      assert forall o, q, a :: HasRequest(db', o, q, a) ==> HasRequest(db, o, q, a);
    }

    method SealUpload(now: nat, actor: string, id: string) returns (reply: Reply)
      requires Valid()
      modifies this`uploads
      ensures Valid() && (Tables(), reply) == SealTx(old(Tables()), cfg, now, actor, id)
    {
      hide StoreOk, BudgetOk, UniqueRequests, Later;
      SealKeeps(Tables(), cfg, now, actor, id);
      SealKeepsBudget(Tables(), cfg, now, actor, id);
      var visible := Visible(now, actor, id);
      if visible.None? { return Refused(NotFound); }
      var row := visible.value;
      if row.received != row.size { return Refused(Conflict); }
      if row.state == Open {
        uploads := uploads[id := row.(state := Sealed)];
        SameRequests(old(Tables()), Tables());
      }
      reply := Status(uploads[id]);
    }

    method ReadSealedChunk(now: nat, actor: string, id: string, index: nat) returns (bytes: Option<Bytes>)
      ensures bytes == ReadSealed(Tables(), now, actor, id, index)
    {
      if id !in uploads || uploads[id].owner != actor || (uploads[id].channel, actor) !in members { return None; }
      if !(uploads[id].state == Complete || (uploads[id].state == Sealed && now < uploads[id].expires)) { return None; }
      if ChunkKey(id, index) !in chunks { return None; }
      bytes := Some(chunks[ChunkKey(id, index)]);
    }

    method CompleteUpload(
      now: nat, actor: string, id: string, detected: Option<string>, media: string)
      returns (reply: Reply)
      requires Valid() && media !in objects
      modifies this`uploads, this`objects
      ensures Valid() && (Tables(), reply) == CompleteTx(old(Tables()), cfg, now, actor, id, detected, media)
    {
      hide StoreOk, BudgetOk, UniqueRequests, FinishCompleteTx;
      BeginCallOk(Tables(), cfg, now, actor, id);
      var sealed := SealUpload(now, actor, id);
      if !sealed.Status? { return sealed; }
      var status := sealed.row;
      if status.media.Some? { return Completed(status.media.value); }
      StoredUploadOk(Tables(), id);
      ghost var db := Tables();
      var content: Bytes := [];
      var length := 0;
      for index := 0 to status.nextChunk
        invariant Tables() == db
        invariant content == Content(db, id, index) && length == |content|
      {
        var bytes := ReadSealedChunk(now, actor, id, index);
        if bytes.None? { return Refused(NotFound); }
        length := length + |bytes.value|;
        content := content + bytes.value;
      }
      ContentLength(db, id, status.nextChunk);
      reply := Publish(now, Completion(actor, id, status, status.nextChunk, content), detected, media);
    }

    method Publish(now: nat, call: Completion, detected: Option<string>, media: string) returns (reply: Reply)
      requires Valid() && CallOk(Tables(), call) && call.index == call.status.nextChunk && media !in objects
      modifies this`uploads, this`objects
      ensures Valid() && (Tables(), reply) == FinishCompleteTx(old(Tables()), cfg, now, call, detected, media)
    {
      hide StoreOk, BudgetOk, UniqueRequests, Later, CallOk;
      FinishKeeps(Tables(), cfg, now, call, detected, media);
      FinishKeepsBudget(Tables(), cfg, now, call, detected, media);
      PublicationFits(Tables(), cfg, now, call, detected, media);
      if |call.content| != call.status.size { return Refused(Conflict); }
      if detected.None? { return Refused(Unsupported); }
      var visible := Visible(now, call.actor, call.upload);
      if visible.None? { return Refused(NotFound); }
      var row := visible.value;
      if row.media.Some? { return Completed(row.media.value); }
      if row.state != Sealed { return Refused(Conflict); }
      objects := objects[media := Media(call.actor, row.channel, call.upload, row.filename, detected.value, row.size,
        Sha256(call.content))];
      uploads := uploads[call.upload := row.(state := Complete, media := Some(media))];
      SameRequests(old(Tables()), Tables());
      reply := Completed(media);
    }

    method AbortUpload(now: nat, actor: string, id: string) returns (reply: Reply)
      requires Valid()
      modifies this`uploads, this`chunks
      ensures Valid() && (Tables(), reply) == AbortTx(old(Tables()), cfg, now, actor, id)
    {
      var visible := Visible(now, actor, id);
      if visible.None? { return Refused(NotFound); }
      if visible.value.state == Complete { return Refused(Conflict); }
      Delete({id});
      reply := Aborted;
    }

    /** Deletes upload rows; their chunks go with them. */
    method Delete(gone: set<string>)
      requires Valid() && forall id :: id in gone && id in uploads ==> uploads[id].state != Complete
      modifies this`uploads, this`chunks
      ensures Valid() && Tables() == Without(old(Tables()), gone)
    {
      hide StoreOk, BudgetOk, UniqueRequests, Later;
      WithoutKeeps(Tables(), gone);
      WithoutKeepsBudget(Tables(), cfg, gone);
      uploads := uploads - gone;
      chunks := map k | k in chunks && k.upload !in gone :: chunks[k];
      SameRequests(old(Tables()), Tables());
    }

    method CleanupExpired(now: nat) returns (count: nat)
      requires Valid()
      modifies this`uploads, this`chunks
      ensures Valid() && Tables() == CleanupTx(old(Tables()), now).0 && count == |Expired(old(Tables()), now)|
    {
      var gone := set id | id in uploads && uploads[id].state != Complete && uploads[id].expires <= now;
      assert gone == Expired(Tables(), now);
      Delete(gone);
      count := |gone|;
    }
  }
}
