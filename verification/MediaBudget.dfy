/** Budgets of the media store: what is reserved never exceeds the limits, and publishing moves a
    reservation from the upload to the object without changing any sum. */
module MediaBudget {
  import opened Options
  import opened MediaSpec
  import opened MediaInvariant

  ghost predicate BudgetOk(db: Db, cfg: Config) {
    && Sum(Ledger(db)) <= cfg.limits.total
    && (forall owner :: Sum(OfOwner(Ledger(db), owner)) <= cfg.limits.owner)
    && |Active(db)| <= MAX_ACTIVE
    && (forall owner :: |ActiveOf(db, owner)| <= MAX_OWNER_ACTIVE)
    && (forall id :: id in db.uploads ==> db.uploads[id].size <= cfg.limits.maxFile)
  }

  lemma SumOfNothing(m: map<Item, Entry>)
    requires m.Keys == {}
    ensures Sum(m) == 0
  {
  }

  lemma EmptyBudget(db: Db, cfg: Config)
    requires db.uploads == map[] && db.objects == map[]
    ensures BudgetOk(db, cfg)
  {
    hide Sum, Items, Ledger;
    var ledger := Ledger(db);
    forall i ensures i !in ledger { LedgerEntry(db, i); }
    SumOfNothing(ledger);
    assert Active(db) == {};
    forall owner ensures Sum(OfOwner(ledger, owner)) == 0 && |ActiveOf(db, owner)| == 0 {
      assert OfOwner(ledger, owner).Keys == {} && ActiveOf(db, owner) == {};
      SumOfNothing(OfOwner(ledger, owner));
    }
  }

  // Sums over the ledger

  lemma {:induction false} SumRemove(m: map<Item, Entry>, i: Item)
    requires i in m
    ensures Sum(m) == m[i].charge + Sum(m - {i})
  {
    var j :| j in m && Sum(m) == m[j].charge + Sum(m - {j});
    if j != i {
      SumRemove(m - {j}, i);
      SumRemove(m - {i}, j);
      assert m - {j} - {i} == m - {i} - {j};
    }
  }

  lemma SumInsert(m: map<Item, Entry>, i: Item, e: Entry)
    requires i !in m
    ensures Sum(m[i := e]) == Sum(m) + e.charge
  {
    SumRemove(m[i := e], i);
    assert m[i := e] - {i} == m;
  }

  lemma {:induction false} SumOfFewer(m: map<Item, Entry>, m': map<Item, Entry>)
    requires forall i :: i in m' ==> i in m && m[i] == m'[i]
    ensures Sum(m') <= Sum(m)
  {
    if m != map[] {
      var i :| i in m;
      SumRemove(m, i);
      if i in m' { SumRemove(m', i); SumOfFewer(m - {i}, m' - {i}); }
      else { SumOfFewer(m - {i}, m'); }
    }
  }

  lemma OwnerInsert(m: map<Item, Entry>, i: Item, e: Entry, owner: string)
    requires i !in m
    ensures Sum(OfOwner(m[i := e], owner)) == Sum(OfOwner(m, owner)) + if e.owner == owner then e.charge else 0
  {
    if e.owner == owner {
      SumInsert(OfOwner(m, owner), i, e);
      assert OfOwner(m[i := e], owner) == OfOwner(m, owner)[i := e];
    } else {
      assert OfOwner(m[i := e], owner) == OfOwner(m, owner);
    }
  }

  // How the ledger follows the tables

  lemma LedgerEntry(db: Db, i: Item)
    ensures i in Ledger(db) <==> EntryOf(db, i).Some?
    ensures i in Ledger(db) ==> EntryOf(db, i) == Some(Ledger(db)[i])
  {
    ItemsHaveEntries(db, i);
    hide Items, EntryOf;
  }

  lemma ItemsHaveEntries(db: Db, i: Item)
    ensures EntryOf(db, i).Some? ==> i in Items(db)
  {
  }

  /** Two ledgers that agree entry by entry, apart from the item put, are equal apart from it. */
  lemma LedgerPut(db: Db, m: map<Item, Entry>, i: Item, e: Entry)
    requires EntryOf(db, i) == Some(e)
    requires forall j :: j != i ==> (j in m <==> EntryOf(db, j).Some?) && (j in m ==> EntryOf(db, j) == Some(m[j]))
    ensures Ledger(db) == m[i := e]
  {
    hide Ledger, EntryOf;
    forall j ensures j in Ledger(db) <==> j in m[i := e] { LedgerEntry(db, j); }
    forall j | j in Ledger(db) ensures Ledger(db)[j] == m[i := e][j] { LedgerEntry(db, j); }
  }

  // Admission

  lemma CreateWithinBudget(db: Db, cfg: Config, now: nat, actor: string, channel: string, input: NewUpload, id: string)
    requires BudgetOk(db, cfg) && ValidLimits(cfg.limits) && id !in db.uploads
    ensures BudgetOk(CreateTx(db, cfg, now, actor, channel, input, id).0, cfg)
  {
    hide Accepted, ReadUpload;
    var db' := CreateTx(db, cfg, now, actor, channel, input, id).0;
    if db' != db { AdmittedWithinBudget(db, db', cfg, actor, input.size, id); }
  }

  lemma AdmittedWithinBudget(db: Db, db': Db, cfg: Config, actor: string, size: nat, id: string)
    requires BudgetOk(db, cfg) && ValidLimits(cfg.limits) && WithinBudget(db, cfg, actor, size)
      && size <= cfg.limits.maxFile
    requires id !in db.uploads && id in db'.uploads && db' == db.(uploads := db.uploads[id := db'.uploads[id]])
    requires db'.uploads[id].owner == actor && db'.uploads[id].size == size && db'.uploads[id].state == Open
    ensures BudgetOk(db', cfg)
  {
    var entry := Entry(actor, Charge(size));
    hide Ledger, Sum, OfOwner, Active, ActiveOf;
    AdmissionLedger(db, db', id);
    SumInsert(Ledger(db), OfUpload(id), entry);
    forall owner ensures Sum(OfOwner(Ledger(db'), owner)) <= cfg.limits.owner {
      OwnerInsert(Ledger(db), OfUpload(id), entry, owner);
    }
    AdmissionCounts(db, db', id);
  }

  lemma AdmissionCounts(db: Db, db': Db, id: string)
    requires id !in db.uploads && id in db'.uploads && db'.uploads == db.uploads[id := db'.uploads[id]]
    ensures |Active(db')| <= |Active(db)| + 1
    ensures forall owner :: |ActiveOf(db', owner)| <= |ActiveOf(db, owner)| + if owner == db'.uploads[id].owner then 1
      else 0
  {
    FewerElements(Active(db'), Active(db) + {id});
    forall owner
      ensures |ActiveOf(db', owner)| <= |ActiveOf(db, owner)| + if owner == db'.uploads[id].owner then 1 else 0
    {
      FewerElements(ActiveOf(db', owner), if owner == db'.uploads[id].owner then ActiveOf(db, owner) + {id}
        else ActiveOf(db, owner));
    }
  }

  lemma AdmissionLedger(db: Db, db': Db, id: string)
    requires id !in db.uploads && id in db'.uploads && db' == db.(uploads := db.uploads[id := db'.uploads[id]])
      && db'.uploads[id].state == Open
    ensures OfUpload(id) !in Ledger(db)
    ensures Ledger(db') == Ledger(db)[OfUpload(id) := Entry(db'.uploads[id].owner, Charge(db'.uploads[id].size))]
  {
    hide Ledger;
    forall j | j != OfUpload(id)
      ensures (j in Ledger(db) <==> EntryOf(db', j).Some?)
        && (j in Ledger(db) ==> EntryOf(db', j) == Some(Ledger(db)[j]))
    {
      LedgerEntry(db, j);
    }
    LedgerEntry(db, OfUpload(id));
    LedgerPut(db', Ledger(db), OfUpload(id), Entry(db'.uploads[id].owner, Charge(db'.uploads[id].size)));
  }

  // Steps that keep every reservation

  ghost predicate SameReservations(db: Db, db': Db) {
    && db'.uploads.Keys == db.uploads.Keys && db'.objects == db.objects
    && forall id :: id in db.uploads ==>
      && db'.uploads[id].owner == db.uploads[id].owner && db'.uploads[id].size == db.uploads[id].size
      && (db'.uploads[id].state == Complete <==> db.uploads[id].state == Complete)
  }

  lemma SameBudget(db: Db, db': Db, cfg: Config)
    requires BudgetOk(db, cfg) && SameReservations(db, db')
    ensures BudgetOk(db', cfg)
  {
    hide Ledger, Sum, OfOwner;
    assert Ledger(db') == Ledger(db) by {
      forall j
        ensures (j in Ledger(db') <==> j in Ledger(db)) && (j in Ledger(db) ==> Ledger(db')[j] == Ledger(db)[j])
      {
        LedgerEntry(db, j);
        LedgerEntry(db', j);
      }
    }
    assert Active(db') == Active(db);
    forall owner ensures |ActiveOf(db', owner)| <= MAX_OWNER_ACTIVE {
      assert ActiveOf(db', owner) == ActiveOf(db, owner);
    }
  }

  lemma PutKeepsBudget(
    db: Db, cfg: Config, now: nat, actor: string, id: string, index: nat, bytes: Bytes, claimed: Sha256)
    requires BudgetOk(db, cfg)
    ensures BudgetOk(PutTx(db, cfg, now, actor, id, index, bytes, claimed).0, cfg)
  {
    hide BudgetOk;
    SameBudget(db, PutTx(db, cfg, now, actor, id, index, bytes, claimed).0, cfg);
  }

  lemma SealKeepsBudget(db: Db, cfg: Config, now: nat, actor: string, id: string)
    requires BudgetOk(db, cfg)
    ensures BudgetOk(SealTx(db, cfg, now, actor, id).0, cfg)
  {
    hide BudgetOk;
    SameBudget(db, SealTx(db, cfg, now, actor, id).0, cfg);
  }

  lemma WithoutKeepsBudget(db: Db, cfg: Config, gone: set<string>)
    requires BudgetOk(db, cfg)
    ensures BudgetOk(Without(db, gone), cfg)
  {
    hide Ledger, Sum;
    var db' := Without(db, gone);
    forall j | j in Ledger(db') ensures j in Ledger(db) && Ledger(db)[j] == Ledger(db')[j] {
      LedgerEntry(db, j);
      LedgerEntry(db', j);
    }
    SumOfFewer(Ledger(db), Ledger(db'));
    forall owner
      ensures Sum(OfOwner(Ledger(db'), owner)) <= cfg.limits.owner
      ensures |ActiveOf(db', owner)| <= MAX_OWNER_ACTIVE
    {
      SumOfFewer(OfOwner(Ledger(db), owner), OfOwner(Ledger(db'), owner));
      FewerElements(ActiveOf(db', owner), ActiveOf(db, owner));
    }
    FewerElements(Active(db'), Active(db));
  }

  lemma FewerElements(a: set<string>, b: set<string>)
    requires a <= b
    ensures |a| <= |b|
  {
    assert b == a + (b - a);
  }

  // Publication

  ghost predicate Publishes(db: Db, db': Db, id: string, media: string) {
    && id in db.uploads && db.uploads[id].state != Complete && media !in db.objects
    && media in db'.objects && db'.objects == db.objects[media := db'.objects[media]]
    && db'.objects[media].owner == db.uploads[id].owner && db'.objects[media].size == db.uploads[id].size
    && db'.uploads == db.uploads[id := db.uploads[id].(state := Complete, media := Some(media))]
  }

  lemma PublicationLedger(db: Db, db': Db, id: string, media: string)
    requires Publishes(db, db', id, media)
    ensures var entry, rest := Entry(db.uploads[id].owner, Charge(db.uploads[id].size)), Ledger(db) - {OfUpload(id)};
      && Ledger(db) == rest[OfUpload(id) := entry] && OfUpload(id) !in rest
      && Ledger(db') == rest[OfObject(media) := entry] && OfObject(media) !in rest
  {
    hide Ledger;
    var entry, rest := Entry(db.uploads[id].owner, Charge(db.uploads[id].size)), Ledger(db) - {OfUpload(id)};
    LedgerEntry(db, OfUpload(id));
    LedgerEntry(db, OfObject(media));
    forall j | j != OfObject(media)
      ensures (j in rest <==> EntryOf(db', j).Some?) && (j in rest ==> EntryOf(db', j) == Some(rest[j]))
    {
      LedgerEntry(db, j);
    }
    LedgerPut(db', rest, OfObject(media), entry);
  }

  /** Publishing moves the charge: the total and every owner's sum stay exactly the same. */
  lemma PublicationMovesCharge(db: Db, db': Db, id: string, media: string, owner: string)
    requires Publishes(db, db', id, media) && id in db.uploads
    ensures Sum(Ledger(db')) == Sum(Ledger(db))
    ensures Sum(OfOwner(Ledger(db'), owner)) == Sum(OfOwner(Ledger(db), owner))
  {
    var entry := Entry(db.uploads[id].owner, Charge(db.uploads[id].size));
    var rest := Ledger(db) - {OfUpload(id)};
    hide Ledger, Sum, OfOwner, Publishes;
    PublicationLedger(db, db', id, media);
    SumInsert(rest, OfUpload(id), entry);
    SumInsert(rest, OfObject(media), entry);
    OwnerInsert(rest, OfUpload(id), entry, owner);
    OwnerInsert(rest, OfObject(media), entry, owner);
  }

  lemma FinishPublishes(db: Db, cfg: Config, now: nat, call: Completion, detected: Option<string>, media: string)
    requires media !in db.objects
    ensures var db' := FinishCompleteTx(db, cfg, now, call, detected, media).0;
            db' == db || Publishes(db, db', call.upload, media)
  {
    hide TriggerAdmits, Ledger;
  }

  lemma FinishKeepsBudget(db: Db, cfg: Config, now: nat, call: Completion, detected: Option<string>, media: string)
    requires BudgetOk(db, cfg) && media !in db.objects
    ensures BudgetOk(FinishCompleteTx(db, cfg, now, call, detected, media).0, cfg)
  {
    hide FinishCompleteTx, Ledger, Sum, OfOwner;
    var db' := FinishCompleteTx(db, cfg, now, call, detected, media).0;
    FinishPublishes(db, cfg, now, call, detected, media);
    if db' != db {
      forall owner
        ensures Sum(Ledger(db')) <= cfg.limits.total && Sum(OfOwner(Ledger(db'), owner)) <= cfg.limits.owner
        ensures |ActiveOf(db', owner)| <= MAX_OWNER_ACTIVE
      {
        PublicationMovesCharge(db, db', call.upload, media, owner);
        FewerElements(ActiveOf(db', owner), ActiveOf(db, owner));
      }
      PublicationMovesCharge(db, db', call.upload, media, "");
      FewerElements(Active(db'), Active(db));
    }
  }

  /** Publication is never refused for quota: the upload it comes from has reserved its charge. */
  lemma PublicationFits(db: Db, cfg: Config, now: nat, call: Completion, detected: Option<string>, media: string)
    requires StoreOk(db) && BudgetOk(db, cfg)
    ensures FinishCompleteTx(db, cfg, now, call, detected, media).1 != Refused(Quota)
  {
    hide StoreOk, Ledger, Sum, OfOwner;
    if call.upload in db.uploads { StoredUploadOk(db, call.upload); }
  }

  // The insert trigger, for whatever writes an object

  /** The object is the content of a fully received, sealed upload that has not been published. */
  ghost predicate OfSealedUpload(db: Db, object': Media) {
    && object'.upload in db.uploads
    && var row := db.uploads[object'.upload];
    && row.owner == object'.owner && row.channel == object'.channel && row.size == object'.size
    && row.received == row.size && row.state == Sealed && row.media.None?
  }

  /** The tables with the object in them, and its upload, if it comes from one, published. */
  ghost function Stored(db: Db, media: string, object': Media): Db {
    var db' := db.(objects := db.objects[media := object']);
    if OfSealedUpload(db, object')
    then db'.(uploads := db.uploads[object'.upload := db.uploads[object'.upload].(
                state := Complete, media := Some(media))])
    else db'
  }

  lemma ObjectLedger(db: Db, db': Db, media: string, object': Media)
    requires media !in db.objects && db' == db.(objects := db.objects[media := object'])
    ensures OfObject(media) !in Ledger(db)
    ensures Ledger(db') == Ledger(db)[OfObject(media) := Entry(object'.owner, Charge(object'.size))]
  {
    hide Ledger;
    LedgerEntry(db, OfObject(media));
    forall j | j != OfObject(media)
      ensures (j in Ledger(db) <==> EntryOf(db', j).Some?)
        && (j in Ledger(db) ==> EntryOf(db', j) == Some(Ledger(db)[j]))
    {
      LedgerEntry(db, j);
    }
    LedgerPut(db', Ledger(db), OfObject(media), Entry(object'.owner, Charge(object'.size)));
  }

  /** Whoever inserts an object, the trigger admits it exactly when it is no larger than a file may be and the
      tables with it are within the total and its owner's limit. */
  lemma TriggerIsExact(db: Db, cfg: Config, media: string, object': Media)
    requires media !in db.objects
    ensures var db' := Stored(db, media, object');
      TriggerAdmits(db, cfg, object') <==>
        && object'.size <= cfg.limits.maxFile && Sum(Ledger(db')) <= cfg.limits.total
        && Sum(OfOwner(Ledger(db'), object'.owner)) <= cfg.limits.owner
  {
    hide Ledger, Sum, OfOwner;
    var db', entry := Stored(db, media, object'), Entry(object'.owner, Charge(object'.size));
    if OfSealedUpload(db, object') {
      PublicationMovesCharge(db, db', object'.upload, media, object'.owner);
    } else {
      ObjectLedger(db, db', media, object');
      SumInsert(Ledger(db), OfObject(media), entry);
      OwnerInsert(Ledger(db), OfObject(media), entry, object'.owner);
    }
  }

  /** The length comparison in complete never fails. */
  lemma LengthAlwaysMatches(db: Db, call: Completion)
    requires CallOk(db, call) && call.index == call.status.nextChunk
    ensures |call.content| == call.status.size
  {
  }

  /** A further put of a chunk already stored changes nothing, and is accepted exactly when the bytes agree. */
  lemma RepeatedPut(db: Db, cfg: Config, now: nat, actor: string, id: string, index: nat, bytes: Bytes)
    requires StoreOk(db) && bytes != [] && ReadUpload(db, cfg, now, actor, id).Some?
    requires db.uploads[id].state == Open && index < db.uploads[id].nextChunk
    ensures var (db', reply) := PutTx(db, cfg, now, actor, id, index, bytes, Sha256(bytes));
      db' == db && (reply == Status(db.uploads[id]) <==> bytes == db.chunks[ChunkKey(id, index)])
  {
    hide StoreOk;
    StoredUploadOk(db, id);
  }

  /** Sealing a visible upload succeeds exactly when every chunk of the declared size is stored. */
  lemma SealNeedsEveryChunk(db: Db, cfg: Config, now: nat, actor: string, id: string)
    requires StoreOk(db) && ReadUpload(db, cfg, now, actor, id).Some?
    ensures var reply := SealTx(db, cfg, now, actor, id).1;
      && (reply.Status? <==> forall i :: 0 <= i && i * CHUNK < db.uploads[id].size ==> ChunkKey(id, i) in db.chunks)
      && (reply.Status? <==> |Content(db, id, db.uploads[id].nextChunk)| == db.uploads[id].size)
  {
    hide StoreOk;
    StoredUploadOk(db, id);
    var row := db.uploads[id];
    ContentLength(db, id, row.nextChunk);
    if row.received != row.size { assert ChunkKey(id, row.nextChunk) !in db.chunks; }
  }
}
