/** The share inbox: receipts of shared text and images in the browser's store, guarded by a login
    generation. Receipt ids are numbers because the store hands its rows out in key order; the auth
    row is the stored generation. */
module InboxSpec {
  import opened Options

  const MAX_IMAGE: nat := 35 * 1024 * 1024
  const MAX_TEXT: nat := 16000
  const AGE: int := 48 * 60 * 60 * 1000
  const ADMITTED_AGE: int := 7 * 24 * 60 * 60 * 1000
  const REPEAT: int := 120000
  const MAX_PENDING: nat := 5
  const MAX_DONE: nat := 50
  const IMAGE_TYPES: set<string> := {"image/jpeg", "image/png", "image/gif", "image/webp", "image/heic", "image/avif"}

  datatype File = File(size: nat, kind: string)
  datatype Admission = Admission(body: string, draft: string, media: seq<string>, request: string)

  datatype Receipt = Receipt(
    owner: Option<string>,
    generation: Revision,
    created: int,
    hash: string,
    text: string,
    file: Option<File>,
    channel: Option<string>,
    admission: Option<Admission>,
    rejected: bool,
    done: Option<int>)

  /** The stored generation, and the counter of the page or worker that asks. */
  datatype Revision = Revision(stored: nat, local: nat)

  type Receipts = map<nat, Receipt>
  datatype Db = Db(rows: Receipts, generation: nat)

  datatype Answer =
    | Given(id: nat) | Updated(row: Receipt) | Done
    | LoginChanged | NotAvailable | Locked | BadShare | TooMany

  /** A finish at clock zero leaves the row unfinished, because zero counts as no time at all. */
  predicate IsDone(row: Receipt) { row.done.Some? && row.done.value != 0 }

  predicate Retained(row: Receipt, now: int) { now - row.created < if row.admission.Some? then ADMITTED_AGE else AGE }

  function Utf8(text: string): nat {
    if text == "" then 0
    else (if text[0] < '\U{80}' then 1 else if text[0] < '\U{800}' then 2 else if text[0] < '\U{10000}' then 3 else 4)
         + Utf8(text[1..])
  }

  function Size(file: Option<File>): nat { if file.Some? then file.value.size else 0 }

  // Capture

  datatype Share = Share(owner: Option<string>, text: string, file: Option<File>, hash: string)

  predicate Sendable(share: Share) {
    && (share.text != "" || share.file.Some?)
    && Utf8(share.text) <= MAX_TEXT
    && (share.file.Some? ==> share.file.value.size <= MAX_IMAGE && share.file.value.kind in IMAGE_TYPES)
  }

  function Live(rows: Receipts, now: int): Receipts { map id | id in rows && Retained(rows[id], now) :: rows[id] }

  /** Among finished rows: later, or as late with the smaller key. */
  predicate Newer(rows: Receipts, id: nat, other: nat)
    requires id in rows && other in rows && IsDone(rows[id]) && IsDone(rows[other])
  {
    rows[id].done.value > rows[other].done.value || (rows[id].done.value == rows[other].done.value && id < other)
  }

  function NewerThan(rows: Receipts, id: nat): set<nat>
    requires id in rows && IsDone(rows[id])
  {
    set other | other in rows && IsDone(rows[other]) && Newer(rows, other, id)
  }

  /** A finished row that fifty newer finished rows push out. */
  predicate Surplus(rows: Receipts, id: nat)
    requires id in rows
  {
    IsDone(rows[id]) && |NewerThan(rows, id)| >= MAX_DONE
  }

  function Trimmed(rows: Receipts): Receipts { map id | id in rows && !Surplus(rows, id) :: rows[id] }

  predicate Repeats(row: Receipt, share: Share, now: int) {
    row.owner == share.owner && row.hash == share.hash && (!IsDone(row) || now - row.done.value < REPEAT)
  }

  /** The row that already holds the share: the first one in key order. */
  ghost predicate Holder(rows: Receipts, share: Share, now: int, id: nat) {
    && id in rows && Repeats(rows[id], share, now)
    && forall other :: other in rows && Repeats(rows[other], share, now) ==> id <= other
  }

  function Unfinished(rows: Receipts): set<nat> { set id | id in rows && !IsDone(rows[id]) }

  ghost function Bytes(rows: Receipts, ids: set<nat>): nat
    requires ids <= rows.Keys
  {
    if ids == {} then 0 else var id :| id in ids; Size(rows[id].file) + Bytes(rows, ids - {id})
  }

  function NewReceipt(share: Share, revision: Revision, now: int): Receipt {
    Receipt(share.owner, revision, now, share.hash, share.text, share.file, None, None, false, None)
  }

  /** A refused capture is rolled back, with the rows it had dropped. */
  ghost function CaptureTx(db: Db, local: nat, revision: Revision, share: Share, now: int, id: nat): (r: (Db, Answer)) {
    if !Sendable(share) then (db, BadShare)
    else if revision != Revision(db.generation, local) then (db, LoginChanged)
    else
      var live := Live(db.rows, now);
      if holder :| Holder(live, share, now, holder) then (db.(rows := Trimmed(live)), Given(holder))
      else if |Unfinished(live)| >= MAX_PENDING || Bytes(live, Unfinished(live)) + Size(share.file) > 2 * MAX_IMAGE
        then (db, TooMany)
      else (db.(rows := Trimmed(live)[id := NewReceipt(share, revision, now)]), Given(id))
  }

  // One receipt

  /** A receipt open to the owner. */
  predicate Open(db: Db, id: nat, owner: Option<string>) {
    id in db.rows && db.rows[id].owner == owner && !IsDone(db.rows[id])
  }

  function PutTx(db: Db, id: nat, row: Receipt): (r: (Db, Answer)) { (db.(rows := db.rows[id := row]), Updated(row)) }

  function ClaimTx(db: Db, local: nat, id: nat, owner: Option<string>, revision: Revision): (r: (Db, Answer)) {
    if revision != Revision(db.generation, local) then (db, LoginChanged)
    else if !(Open(db, id, owner) || Open(db, id, None)) then (db, NotAvailable)
    else PutTx(db, id, db.rows[id].(owner := owner))
  }

  function EditTx(
    db: Db, local: nat, id: nat, owner: Option<string>, revision: Revision, text: string, channel: Option<string>)
    : (r: (Db, Answer))
  {
    if revision != Revision(db.generation, local) then (db, LoginChanged)
    else if !Open(db, id, owner) then (db, NotAvailable)
    else if db.rows[id].admission.Some? then (db, Locked)
    else if Utf8(text) > MAX_TEXT then (db, BadShare)
    else PutTx(db, id, db.rows[id].(text := text, channel := channel))
  }

  function AdmitTx(
    db: Db, local: nat, id: nat, owner: Option<string>, revision: Revision, admission: Option<Admission>)
    : (r: (Db, Answer))
  {
    if revision != Revision(db.generation, local) then (db, LoginChanged)
    else if !Open(db, id, owner) then (db, NotAvailable)
    else if db.rows[id].admission.Some? && db.rows[id].admission != admission then (db, Locked)
    else PutTx(db, id, db.rows[id].(admission := admission))
  }

  function OwnedTx(db: Db, local: nat, id: nat, owner: Option<string>, revision: Revision): (r: (Db, Answer)) {
    if revision != Revision(db.generation, local) then (db, LoginChanged)
    else if !Open(db, id, owner) then (db, Done)
    else (PutTx(db, id, db.rows[id].(file := None, rejected := false)).0, Done)
  }

  function RejectTx(db: Db, local: nat, id: nat, owner: Option<string>, revision: Revision): (r: (Db, Answer)) {
    if revision != Revision(db.generation, local) then (db, LoginChanged)
    else if !Open(db, id, owner) then (db, NotAvailable)
    else (PutTx(db, id, db.rows[id].(rejected := true)).0, Done)
  }

  function Closed(row: Receipt, now: int): Receipt {
    row.(done := Some(now), text := "", file := None,
         admission := if row.admission.Some? then Some(row.admission.value.(body := "", draft := "", media := []))
           else None)
  }

  function FinishTx(
    db: Db, local: nat, id: nat, owner: Option<string>, revision: Revision, now: int)
    : (r: (Db, Answer))
  {
    if revision != Revision(db.generation, local) then (db, LoginChanged)
    else if !Open(db, id, owner) then (db, Done)
    else (PutTx(db, id, Closed(db.rows[id], now)).0, Done)
  }

  function DiscardTx(db: Db, local: nat, id: nat, owner: Option<string>, revision: Revision): (r: (Db, Answer)) {
    if revision != Revision(db.generation, local) then (db, LoginChanged)
    else if !Open(db, id, owner) then (db, NotAvailable)
    else if db.rows[id].admission.Some? && !db.rows[id].rejected then (db, Locked)
    else (db.(rows := db.rows - {id}), Done)
  }

  function LogoutTx(db: Db): Db { Db(map[], db.generation + 1) }

  // Sums and ranks

  lemma {:induction false} BytesWithout(rows: Receipts, ids: set<nat>, id: nat)
    requires ids <= rows.Keys && id in ids
    ensures Bytes(rows, ids) == Size(rows[id].file) + Bytes(rows, ids - {id})
    decreases ids
  {
    var pick :| pick in ids && Bytes(rows, ids) == Size(rows[pick].file) + Bytes(rows, ids - {pick});
    if pick != id {
      BytesWithout(rows, ids - {pick}, id);
      BytesWithout(rows, ids - {id}, pick);
      assert ids - {pick} - {id} == ids - {id} - {pick};
    }
  }

  /** The sum depends only on the sizes, not on the map they are read from. */
  lemma {:induction false} SameBytes(rows: Receipts, rows': Receipts, ids: set<nat>)
    requires ids <= rows.Keys && ids <= rows'.Keys
    requires forall id :: id in ids ==> Size(rows'[id].file) <= Size(rows[id].file)
    ensures Bytes(rows', ids) <= Bytes(rows, ids)
    decreases ids
  {
    if id :| id in ids {
      BytesWithout(rows, ids, id);
      BytesWithout(rows', ids, id);
      SameBytes(rows, rows', ids - {id});
    }
  }

  lemma {:induction false} FewerBytes(rows: Receipts, few: set<nat>, ids: set<nat>)
    requires few <= ids <= rows.Keys
    ensures Bytes(rows, few) <= Bytes(rows, ids)
    ensures (forall id :: id in ids - few ==> rows[id].file.None?) ==> Bytes(rows, few) == Bytes(rows, ids)
    decreases ids
  {
    if exists id :: id in ids && id !in few {
      var id :| id in ids && id !in few;
      BytesWithout(rows, ids, id);
      FewerBytes(rows, few, ids - {id});
    } else {
      assert few == ids;
    }
  }

  /** Receipts without a file take no room, and one file takes its size. */
  lemma BytesOfFiles(rows: Receipts, ids: set<nat>, id: nat)
    requires id in ids && ids <= rows.Keys && forall other :: other in ids && other != id ==> rows[other].file.None?
    ensures Bytes(rows, ids) == if rows[id].file.Some? then rows[id].file.value.size else 0
  {
    BytesWithout(rows, ids, id);
    FewerBytes(rows, {}, ids - {id});
  }

  /** A set of finished rows has an oldest one. */
  lemma {:induction false} Oldest(rows: Receipts, ids: set<nat>) returns (id: nat)
    requires ids != {} && forall other :: other in ids ==> other in rows && IsDone(rows[other])
    ensures id in ids && forall other :: other in ids && other != id ==> Newer(rows, other, id)
    decreases ids
  {
    var pick :| pick in ids;
    id := pick;
    if ids - {pick} != {} {
      var last := Oldest(rows, ids - {pick});
      if Newer(rows, pick, last) { id := last; }
    }
    forall other | other in ids && other != id ensures Newer(rows, other, id) {
      assert other == pick || other in ids - {pick};
    }
  }

  lemma SubsetCounts(few: set<nat>, ids: set<nat>)
    requires few <= ids
    ensures |few| <= |ids|
  {
    var rest := ids - few;
    assert ids == few + rest;
  }

  /** Trimming leaves at most fifty finished rows. */
  lemma TrimmedIsBounded(rows: Receipts)
    ensures |Trimmed(rows).Keys - Unfinished(rows)| <= MAX_DONE
  {
    var kept := Trimmed(rows).Keys - Unfinished(rows);
    if kept != {} {
      var last := Oldest(rows, kept);
      assert kept - {last} <= NewerThan(rows, last);
      SubsetCounts(kept - {last}, NewerThan(rows, last));
    }
  }
}
