/** Durable upload staging: rows, budgets and the transactions of the media store.

    Both database adapters run the same transitions, so there is one store. A
    SHA-256 value remembers the bytes it was taken of. */
module MediaSpec {
  import opened Options

  const CHUNK: nat := 1024 * 1024
  const UPLOAD_TTL: nat := 24 * 60 * 60
  const MAX_ACTIVE: nat := 64
  const MAX_OWNER_ACTIVE: nat := 8
  const U64_MAX: nat := 0xFFFF_FFFF_FFFF_FFFF
  const I64_MAX: nat := 0x7FFF_FFFF_FFFF_FFFF

  type Byte = b: int | 0 <= b < 256 witness 0
  type Bytes = seq<Byte>
  datatype Sha256 = Sha256(of: Bytes)

  datatype Limits = Limits(maxFile: nat, owner: nat, total: nat)

  /** What connect accepts. */
  predicate ValidLimits(l: Limits) {
    1 <= l.maxFile <= 1024 * 1024 * 1024 && l.maxFile <= l.owner <= l.total <= I64_MAX
  }

  datatype UploadState = Open | Sealed | Complete

  datatype Upload = Upload(
    owner: string, channel: string, request: string, filename: string, declared: string,
    size: nat, received: nat, nextChunk: nat, state: UploadState, expires: nat, media: Option<string>)

  datatype Media = Media(owner: string, channel: string, upload: string, filename: string, contentType: string,
    size: nat, sha: Sha256)

  datatype ChunkKey = ChunkKey(upload: string, index: nat)

  datatype Db = Db(
    uploads: map<string, Upload>,
    chunks: map<ChunkKey, Bytes>,
    objects: map<string, Media>,
    members: set<(string, string)>)

  datatype Config = Config(limits: Limits, channels: Option<set<string>>)

  datatype NewUpload = NewUpload(request: string, filename: string, contentType: string, size: nat)

  datatype UploadError = NotFound | Conflict | Quota | Invalid | Unsupported

  /** A completion between its transactions: what it has read and hashed so far. */
  datatype Completion = Completion(actor: string, upload: string, status: Upload, index: nat, content: Bytes)

  datatype Reply =
    | Refused(error: UploadError)
    | Status(row: Upload)
    | Reading(call: Completion)
    | Completed(media: string)
    | Aborted
    | Done

  function Min(a: nat, b: nat): nat { if a <= b then a else b }

  function Charge(size: nat): nat { if size < CHUNK then CHUNK else size }

  function SaturatingAdd(a: nat, b: nat): nat { Min(a + b, U64_MAX) }

  predicate Enabled(cfg: Config, channel: string) { cfg.channels.None? || channel in cfg.channels.value }

  predicate Control(c: char) { c < ' ' || '\U{7F}' <= c <= '\U{9F}' }

  predicate Accepted(contentType: string) {
    contentType in {
      "application/octet-stream", "image/jpeg", "image/jpg", "image/png", "image/gif", "image/webp", "image/heic",
      "image/heif", "image/avif", "video/mp4", "video/quicktime", "video/webm", "video/x-matroska", "application/pdf",
      "application/zip", "application/x-zip-compressed", "text/plain", "text/csv"}
  }

  predicate WellNamed(cfg: Config, input: NewUpload) {
    && 1 <= input.size <= cfg.limits.maxFile
    && 1 <= |input.filename| <= 255
    && forall i :: 0 <= i < |input.filename| ==> !Control(input.filename[i])
  }

  // The ledger: what every stored object and every unfinished upload is charged

  datatype Item = OfUpload(id: string) | OfObject(id: string)
  datatype Entry = Entry(owner: string, charge: nat)

  ghost function EntryOf(db: Db, i: Item): Option<Entry> {
    match i
    case OfUpload(id) =>
      if id in db.uploads && db.uploads[id].state != Complete
        then Some(Entry(db.uploads[id].owner, Charge(db.uploads[id].size))) else None
    case OfObject(id) =>
      if id in db.objects then Some(Entry(db.objects[id].owner, Charge(db.objects[id].size))) else None
  }

  ghost function Items(db: Db): set<Item> {
    (set id | id in db.uploads :: OfUpload(id)) + (set id | id in db.objects :: OfObject(id))
  }

  ghost function Ledger(db: Db): map<Item, Entry> {
    map i | i in Items(db) && EntryOf(db, i).Some? :: EntryOf(db, i).value
  }

  ghost function OfOwner(m: map<Item, Entry>, owner: string): map<Item, Entry> {
    map i | i in m && m[i].owner == owner :: m[i]
  }

  ghost function Sum(m: map<Item, Entry>): nat {
    if m == map[] then 0
    else var i :| i in m; m[i].charge + Sum(m - {i})
  }

  ghost function Active(db: Db): set<string> { set id | id in db.uploads && db.uploads[id].state != Complete }

  ghost function ActiveOf(db: Db, owner: string): set<string> {
    set id | id in db.uploads && db.uploads[id].state != Complete && db.uploads[id].owner == owner
  }

  // Transactions

  /** The row an actor may see: own upload, still a member, not expired, channel enabled. */
  ghost function ReadUpload(db: Db, cfg: Config, now: nat, actor: string, id: string): (row: Option<Upload>) {
    if id in db.uploads && db.uploads[id].owner == actor && (db.uploads[id].channel, actor) in db.members
       && (db.uploads[id].state == Complete || now < db.uploads[id].expires) && Enabled(cfg, db.uploads[id].channel)
    then Some(db.uploads[id]) else None
  }

  ghost predicate HasRequest(db: Db, actor: string, request: string, id: string) {
    id in db.uploads && db.uploads[id].owner == actor && db.uploads[id].request == request
  }

  ghost function ByRequest(db: Db, actor: string, request: string): Option<string> {
    if id :| HasRequest(db, actor, request, id) then Some(id) else None
  }

  ghost function CreateTx(
    db: Db, cfg: Config, now: nat, actor: string, channel: string, input: NewUpload, id: string)
    : (r: (Db, Reply))
  {
    if !Enabled(cfg, channel) then (db, Refused(NotFound))
    else if !Accepted(input.contentType) then (db, Refused(Unsupported))
    else if !WellNamed(cfg, input) then (db, Refused(Invalid))
    else if (channel, actor) !in db.members then (db, Refused(NotFound))
    else
      match ByRequest(db, actor, input.request)
      case Some(previous) =>
        var row := ReadUpload(db, cfg, now, actor, previous);
        if row.None? then (db, Refused(NotFound))
        else if row.value.channel != channel || row.value.size != input.size || row.value.filename != input.filename
                || row.value.declared != input.contentType then (db, Refused(Conflict))
        else (db, Status(row.value))
      case None => AdmitUpload(db, cfg, now, actor, channel, input, id)
  }

  ghost predicate WithinBudget(db: Db, cfg: Config, actor: string, size: nat) {
    && |Active(db)| < MAX_ACTIVE && |ActiveOf(db, actor)| < MAX_OWNER_ACTIVE
    && SaturatingAdd(Sum(Ledger(db)), Charge(size)) <= cfg.limits.total
    && SaturatingAdd(Sum(OfOwner(Ledger(db), actor)), Charge(size)) <= cfg.limits.owner
  }

  ghost function AdmitUpload(
    db: Db, cfg: Config, now: nat, actor: string, channel: string, input: NewUpload, id: string)
    : (r: (Db, Reply))
  {
    if !WithinBudget(db, cfg, actor, input.size) then (db, Refused(Quota))
    else
      var row := Upload(actor, channel, input.request, input.filename, input.contentType, input.size, 0, 0, Open,
        now + UPLOAD_TTL, None);
      (db.(uploads := db.uploads[id := row]), Status(row))
  }

  ghost function PutTx(
    db: Db, cfg: Config, now: nat, actor: string, id: string, index: nat, bytes: Bytes, claimed: Sha256)
    : (r: (Db, Reply))
  {
    if bytes == [] || |bytes| > CHUNK || Sha256(bytes) != claimed then (db, Refused(Invalid))
    else
      match ReadUpload(db, cfg, now, actor, id)
      case None => (db, Refused(NotFound))
      case Some(row) =>
        var key := ChunkKey(id, index);
        if row.state != Open || index > row.nextChunk then (db, Refused(Conflict))
        else if index * CHUNK >= row.size || |bytes| != Min(row.size - index * CHUNK, CHUNK) then (db, Refused(Invalid))
        else if index < row.nextChunk then
          if key in db.chunks && db.chunks[key] == bytes then (db, Status(row)) else (db, Refused(Conflict))
        else
          var row' := row.(nextChunk := row.nextChunk + 1, received := row.received + |bytes|);
          (db.(uploads := db.uploads[id := row'], chunks := db.chunks[key := bytes]), Status(row'))
  }

  ghost function SealTx(db: Db, cfg: Config, now: nat, actor: string, id: string): (r: (Db, Reply)) {
    match ReadUpload(db, cfg, now, actor, id)
    case None => (db, Refused(NotFound))
    case Some(row) =>
      if row.received != row.size then (db, Refused(Conflict))
      else if row.state == Open
        then (db.(uploads := db.uploads[id := row.(state := Sealed)]), Status(row.(state := Sealed)))
      else (db, Status(row))
  }

  ghost function ReadSealed(db: Db, now: nat, actor: string, id: string, index: nat): (bytes: Option<Bytes>) {
    if id in db.uploads && db.uploads[id].owner == actor && (db.uploads[id].channel, actor) in db.members
       && (db.uploads[id].state == Complete || (db.uploads[id].state == Sealed && now < db.uploads[id].expires))
       && ChunkKey(id, index) in db.chunks
    then Some(db.chunks[ChunkKey(id, index)]) else None
  }

  ghost function BeginCompleteTx(db: Db, cfg: Config, now: nat, actor: string, id: string): (r: (Db, Reply)) {
    var (db', reply) := SealTx(db, cfg, now, actor, id);
    if !reply.Status? then (db', reply)
    else if reply.row.media.Some? then (db', Completed(reply.row.media.value))
    else (db', Reading(Completion(actor, id, reply.row, 0, [])))
  }

  ghost function ReadStep(db: Db, now: nat, call: Completion): (r: Reply) {
    match ReadSealed(db, now, call.actor, call.upload, call.index)
    case None => Refused(NotFound)
    case Some(bytes) => Reading(call.(index := call.index + 1, content := call.content + bytes))
  }

  /** The insert trigger on stored objects: it credits back the sealed upload being published. */
  ghost predicate TriggerAdmits(db: Db, cfg: Config, object': Media) {
    var credit := if object'.upload in db.uploads && db.uploads[object'.upload].owner == object'.owner
                     && db.uploads[object'.upload].channel == object'.channel
                     && db.uploads[object'.upload].size == object'.size
                     && db.uploads[object'.upload].received == object'.size
                     && db.uploads[object'.upload].state == Sealed
                     && db.uploads[object'.upload].media.None?
                  then Charge(object'.size) else 0;
    && object'.size <= cfg.limits.maxFile
    && Sum(Ledger(db)) + Charge(object'.size) - credit <= cfg.limits.total
    && Sum(OfOwner(Ledger(db), object'.owner)) + Charge(object'.size) - credit <= cfg.limits.owner
  }

  /** detected is the media type found in the bytes, None when the bytes are not acceptable. */
  ghost function FinishCompleteTx(
    db: Db, cfg: Config, now: nat, call: Completion, detected: Option<string>, media: string)
    : (r: (Db, Reply))
  {
    if |call.content| != call.status.size then (db, Refused(Conflict))
    else if detected.None? then (db, Refused(Unsupported))
    else
      match ReadUpload(db, cfg, now, call.actor, call.upload)
      case None => (db, Refused(NotFound))
      case Some(row) =>
        if row.media.Some? then (db, Completed(row.media.value))
        else if row.state != Sealed then (db, Refused(Conflict))
        else
          var object' := Media(call.actor, row.channel, call.upload, row.filename, detected.value, row.size,
            Sha256(call.content));
          if !TriggerAdmits(db, cfg, object') then (db, Refused(Quota))
          else
            (db.(objects := db.objects[media := object'],
                 uploads := db.uploads[call.upload := row.(state := Complete, media := Some(media))]),
             Completed(media))
  }

  ghost function Without(db: Db, gone: set<string>): Db {
    db.(uploads := db.uploads - gone, chunks := map k | k in db.chunks && k.upload !in gone :: db.chunks[k])
  }

  ghost function AbortTx(db: Db, cfg: Config, now: nat, actor: string, id: string): (r: (Db, Reply)) {
    match ReadUpload(db, cfg, now, actor, id)
    case None => (db, Refused(NotFound))
    case Some(row) => if row.state == Complete then (db, Refused(Conflict)) else (Without(db, {id}), Aborted)
  }

  ghost function Expired(db: Db, now: nat): set<string> {
    set id | id in db.uploads && db.uploads[id].state != Complete && db.uploads[id].expires <= now
  }

  ghost function CleanupTx(db: Db, now: nat): (r: (Db, Reply)) { (Without(db, Expired(db, now)), Done) }
}
