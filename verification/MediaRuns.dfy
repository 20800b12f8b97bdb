/** Runs of the media store: any number of clients, completions that read chunk by chunk while
    others put, seal, abort, expire, complete or leave the channel. */
module MediaRuns {
  import opened Options
  import opened MediaSpec
  import opened MediaInvariant
  import opened MediaBudget

  /** used holds every identifier ever given to an upload or object, calls every point a completion has
      reached. */
  datatype System = System(db: Db, clock: nat, used: set<string>, calls: set<Completion>)

  datatype Event =
    | Tick(seconds: nat)
    | SetMembers(members: set<(string, string)>)
    | Create(actor: string, channel: string, input: NewUpload, id: string)
    | Put(actor: string, id: string, index: nat, bytes: Bytes, claimed: Sha256)
    | Seal(actor: string, id: string)
    | BeginComplete(actor: string, id: string)
    | ReadChunk(call: Completion)
    | FinishComplete(call: Completion, detected: Option<string>, media: string)
    | Abort(actor: string, id: string)
    | Cleanup

  const Init := System(Db(map[], map[], map[], {}), 0, {}, {})

  ghost predicate Possible(s: System, e: Event) {
    match e
    case Create(_, _, _, id) => id !in s.used
    case ReadChunk(call) => call in s.calls && call.index < call.status.nextChunk
    case FinishComplete(call, _, media) => call in s.calls && call.index == call.status.nextChunk && media !in s.used
    case _ => true
  }

  ghost function Transact(cfg: Config, s: System, e: Event): (r: (Db, Reply)) {
    match e
    case Tick(_) => (s.db, Done)
    case SetMembers(members) => (s.db.(members := members), Done)
    case Create(actor, channel, input, id) => CreateTx(s.db, cfg, s.clock, actor, channel, input, id)
    case Put(actor, id, index, bytes, claimed) => PutTx(s.db, cfg, s.clock, actor, id, index, bytes, claimed)
    case Seal(actor, id) => SealTx(s.db, cfg, s.clock, actor, id)
    case BeginComplete(actor, id) => BeginCompleteTx(s.db, cfg, s.clock, actor, id)
    case ReadChunk(call) => (s.db, ReadStep(s.db, s.clock, call))
    case FinishComplete(call, detected, media) => FinishCompleteTx(s.db, cfg, s.clock, call, detected, media)
    case Abort(actor, id) => AbortTx(s.db, cfg, s.clock, actor, id)
    case Cleanup => CleanupTx(s.db, s.clock)
  }

  function Named(e: Event): set<string> {
    match e
    case Create(_, _, _, id) => {id}
    case FinishComplete(_, _, media) => {media}
    case _ => {}
  }

  /** A completion that has taken a step stays in calls: another client may have come equally far, and
      a client that stops simply takes no further step. */
  ghost function Next(cfg: Config, s: System, e: Event): System {
    var (db, reply) := Transact(cfg, s, e);
    System(db, if e.Tick? then s.clock + e.seconds else s.clock, s.used + Named(e),
           s.calls + if reply.Reading? then {reply.call} else {})
  }

  ghost predicate Inv(cfg: Config, s: System) {
    && StoreOk(s.db) && BudgetOk(s.db, cfg)
    && s.db.uploads.Keys <= s.used && s.db.objects.Keys <= s.used
    && forall c :: c in s.calls ==> CallOk(s.db, c) && c.upload in s.used
  }

  // One event

  lemma StoreStep(cfg: Config, s: System, e: Event)
    requires Inv(cfg, s) && Possible(s, e) && ValidLimits(cfg.limits)
    ensures var db' := Transact(cfg, s, e).0;
      && StoreOk(db') && Later(s.db, db') && BudgetOk(db', cfg)
      && db'.uploads.Keys <= s.db.uploads.Keys + Named(e) && db'.objects.Keys <= s.db.objects.Keys + Named(e)
      && (forall id :: id in db'.uploads && id !in s.db.uploads ==> id !in s.used)
  {
    hide StoreOk, BudgetOk, Later, CallOk;
    match e
    case Create(actor, channel, input, id) =>
      CreateKeeps(s.db, cfg, s.clock, actor, channel, input, id);
      CreateWithinBudget(s.db, cfg, s.clock, actor, channel, input, id);
    case Put(actor, id, index, bytes, claimed) =>
      PutKeeps(s.db, cfg, s.clock, actor, id, index, bytes, claimed);
      PutKeepsBudget(s.db, cfg, s.clock, actor, id, index, bytes, claimed);
    case Seal(actor, id) =>
      SealKeeps(s.db, cfg, s.clock, actor, id);
      SealKeepsBudget(s.db, cfg, s.clock, actor, id);
    case BeginComplete(actor, id) =>
      SealKeeps(s.db, cfg, s.clock, actor, id);
      SealKeepsBudget(s.db, cfg, s.clock, actor, id);
    case FinishComplete(call, detected, media) =>
      FinishKeeps(s.db, cfg, s.clock, call, detected, media);
      FinishKeepsBudget(s.db, cfg, s.clock, call, detected, media);
    case Abort(actor, id) =>
      LaterSelf(s.db);
      if AbortTx(s.db, cfg, s.clock, actor, id).1.Aborted? {
        WithoutKeeps(s.db, {id});
        WithoutKeepsBudget(s.db, cfg, {id});
      }
    case Cleanup =>
      WithoutKeeps(s.db, Expired(s.db, s.clock));
      WithoutKeepsBudget(s.db, cfg, Expired(s.db, s.clock));
    case SetMembers(members) =>
      MembersMatterNot(s.db, s.db.(members := members), cfg);
    case _ => LaterSelf(s.db);
  }

  lemma MembersMatterNot(db: Db, db': Db, cfg: Config)
    requires StoreOk(db) && BudgetOk(db, cfg) && db' == db.(members := db'.members)
    ensures StoreOk(db') && BudgetOk(db', cfg) && Later(db, db')
  {
    hide BudgetOk, UploadOk, ObjectOk, Content;
    SameBudget(db, db', cfg);
    forall id | id in db'.uploads ensures UploadOk(db', id) { SameUploadOk(db, db', id); }
    forall m | m in db'.objects ensures ObjectOk(db', m) { SameObjectOk(db, db', m); }
  }

  lemma SameUploadOk(db: Db, db': Db, id: string)
    requires id in db.uploads && UploadOk(db, id) && db' == db.(members := db'.members)
    ensures UploadOk(db', id)
  {
  }

  lemma SameObjectOk(db: Db, db': Db, m: string)
    requires StoreOk(db) && m in db.objects && db' == db.(members := db'.members)
    ensures ObjectOk(db', m)
  {
    hide Content;
    assert ObjectOk(db, m);
    StoredUploadOk(db, db.objects[m].upload);
    SameContent(db, db', db.objects[m].upload, db.uploads[db.objects[m].upload].nextChunk);
  }

  lemma InvStep(cfg: Config, s: System, e: Event)
    requires Inv(cfg, s) && Possible(s, e) && ValidLimits(cfg.limits)
    ensures Inv(cfg, Next(cfg, s, e)) && Later(s.db, Next(cfg, s, e).db)
  {
    hide StoreOk, BudgetOk, Later, CallOk, CreateTx, PutTx, SealTx, BeginCompleteTx, FinishCompleteTx, AbortTx;
    hide CleanupTx;
    var s' := Next(cfg, s, e);
    StoreStep(cfg, s, e);
    forall c | c in s'.calls ensures CallOk(s'.db, c) && c.upload in s'.used {
      if c in s.calls {
        CallLater(s.db, s'.db, c);
      } else {
        NewCallOk(cfg, s, e, c);
      }
    }
  }

  lemma NewCallOk(cfg: Config, s: System, e: Event, c: Completion)
    requires Inv(cfg, s) && Possible(s, e) && Transact(cfg, s, e).1 == Reading(c)
    ensures CallOk(Transact(cfg, s, e).0, c) && c.upload in s.used
  {
    hide StoreOk, BudgetOk;
    if e.BeginComplete? { BeginCallOk(s.db, cfg, s.clock, e.actor, e.id); }
    if e.ReadChunk? { ReadCallOk(s.db, s.clock, e.call); }
  }

  // Runs

  ghost predicate IsRun(cfg: Config, states: seq<System>, events: seq<Event>) {
    && |states| == |events| + 1 && states[0] == Init
    && forall i :: 0 <= i < |events| ==> StepAt(cfg, states, events, i)
  }

  ghost predicate StepAt(cfg: Config, states: seq<System>, events: seq<Event>, i: nat)
    requires i < |events| < |states|
  {
    Possible(states[i], events[i]) && states[i + 1] == Next(cfg, states[i], events[i])
  }

  lemma {:induction false} RunInv(cfg: Config, states: seq<System>, events: seq<Event>, i: nat)
    requires IsRun(cfg, states, events) && ValidLimits(cfg.limits) && i < |states|
    ensures Inv(cfg, states[i])
  {
    hide Inv, Next;
    if i == 0 { InitInv(cfg); }
    else {
      RunInv(cfg, states, events, i - 1);
      assert StepAt(cfg, states, events, i - 1);
      InvStep(cfg, states[i - 1], events[i - 1]);
    }
  }

  lemma InitInv(cfg: Config)
    ensures Inv(cfg, Init)
  {
    hide BudgetOk;
    EmptyBudget(Init.db, cfg);
  }

  /** In every reachable state every stored object has the hash and size of the chunks accepted for the one
      upload it came from, and no upload has two objects. */
  lemma PublishedContentIsAccepted(cfg: Config, states: seq<System>, events: seq<Event>, i: nat, media: string)
    requires IsRun(cfg, states, events) && ValidLimits(cfg.limits) && i < |states| && media in states[i].db.objects
    ensures var db, object' := states[i].db, states[i].db.objects[media];
      && object'.upload in db.uploads
      && var n := db.uploads[object'.upload].nextChunk;
      && (forall k :: 0 <= k < n ==> ChunkKey(object'.upload, k) in db.chunks)
      && object'.sha == Sha256(Content(db, object'.upload, n)) && object'.size == |Content(db, object'.upload, n)|
    ensures var objects := states[i].db.objects;
      forall other :: other in objects && objects[other].upload == objects[media].upload ==> other == media
  {
    RunInv(cfg, states, events, i);
    assert ObjectOk(states[i].db, media) && UploadOk(states[i].db, states[i].db.objects[media].upload);
    forall other | other in states[i].db.objects
      && states[i].db.objects[other].upload == states[i].db.objects[media].upload
      ensures other == media
    {
      assert ObjectOk(states[i].db, other);
    }
  }

  /** In every reachable state the charges of objects and unfinished uploads together are within the limits,
      overall and for each owner, and so are the numbers of unfinished uploads. */
  lemma ReservationsWithinLimits(cfg: Config, states: seq<System>, events: seq<Event>, i: nat, owner: string)
    requires IsRun(cfg, states, events) && ValidLimits(cfg.limits) && i < |states|
    ensures Sum(Ledger(states[i].db)) <= cfg.limits.total
      && Sum(OfOwner(Ledger(states[i].db), owner)) <= cfg.limits.owner
    ensures |Active(states[i].db)| <= MAX_ACTIVE && |ActiveOf(states[i].db, owner)| <= MAX_OWNER_ACTIVE
  {
    hide Next, StoreOk, Ledger, Sum, OfOwner, Active, ActiveOf;
    RunInv(cfg, states, events, i);
  }

  /** Every reachable upload holds exactly its first nextChunk chunks, all full but possibly the last of the file. */
  lemma ChunksAreExact(cfg: Config, states: seq<System>, events: seq<Event>, i: nat, id: string, k: nat)
    requires IsRun(cfg, states, events) && ValidLimits(cfg.limits) && i < |states| && id in states[i].db.uploads
    ensures var db, row := states[i].db, states[i].db.uploads[id];
      && (ChunkKey(id, k) in db.chunks <==> k < row.nextChunk)
      && (k < row.nextChunk ==>
            k * CHUNK < row.size && |db.chunks[ChunkKey(id, k)]| == Min(CHUNK, row.size - k * CHUNK))
      && row.received == Min(row.size, row.nextChunk * CHUNK)
      && (row.state != Open ==> row.received == row.size)
  {
    RunInv(cfg, states, events, i);
    StoredUploadOk(states[i].db, id);
    hide IsRun, Inv;
    ChunkAt(states[i].db, id, k);
  }

  lemma ChunkAt(db: Db, id: string, k: nat)
    requires id in db.uploads && UploadOk(db, id)
    ensures var row := db.uploads[id];
      && (ChunkKey(id, k) in db.chunks <==> k < row.nextChunk)
      && (k < row.nextChunk ==>
            k * CHUNK < row.size && |db.chunks[ChunkKey(id, k)]| == Min(CHUNK, row.size - k * CHUNK))
      && row.received == Min(row.size, row.nextChunk * CHUNK)
      && (row.state != Open ==> row.received == row.size)
  {
  }

  /** An accepted chunk keeps its bytes for as long as its upload exists. */
  lemma {:induction false} ChunkFixed(cfg: Config, states: seq<System>, events: seq<Event>, i: nat, j: nat, k: ChunkKey)
    requires IsRun(cfg, states, events) && ValidLimits(cfg.limits) && i <= j < |states|
    requires k in states[i].db.chunks && k.upload in states[j].db.uploads
    ensures k.upload in states[i].db.uploads && k in states[j].db.chunks
      && states[j].db.chunks[k] == states[i].db.chunks[k]
    decreases j - i
  {
    hide Next, Inv, UploadOk, UploadLater, Later;
    RunInv(cfg, states, events, i);
    ChunkOwner(cfg, states[i], k);
    if i < j {
      assert StepAt(cfg, states, events, i);
      UsedStep(cfg, states[i], events[i], k.upload);
      UploadReturnsNever(cfg, states, events, i + 1, j, k.upload);
      InvStep(cfg, states[i], events[i]);
      ChunkStays(states[i].db, states[i + 1].db, k);
      ChunkFixed(cfg, states, events, i + 1, j, k);
    }
  }

  lemma ChunkOwner(cfg: Config, s: System, k: ChunkKey)
    requires Inv(cfg, s) && k in s.db.chunks
    ensures k.upload in s.db.uploads && k.upload in s.used && UploadOk(s.db, k.upload)
  {
    hide UploadOk, ObjectOk, BudgetOk, CallOk;
  }

  lemma ChunkStays(db: Db, db': Db, k: ChunkKey)
    requires k in db.chunks && k.upload in db.uploads && UploadOk(db, k.upload) && Later(db, db')
      && k.upload in db'.uploads
    ensures k in db'.chunks && db'.chunks[k] == db.chunks[k]
  {
    assert UploadLater(db, db', k.upload);
    assert k == ChunkKey(k.upload, k.index);
  }

  /** A deleted upload never comes back. */
  lemma {:induction false} UploadReturnsNever(
    cfg: Config, states: seq<System>, events: seq<Event>, i: nat, j: nat, id: string)
    requires IsRun(cfg, states, events) && ValidLimits(cfg.limits) && i <= j < |states|
    requires id in states[i].used && id in states[j].db.uploads
    ensures id in states[i].db.uploads
    decreases j - i
  {
    hide Next, Transact, StoreOk, BudgetOk, CallOk;
    if i < j {
      assert StepAt(cfg, states, events, i);
      RunInv(cfg, states, events, i);
      UsedStep(cfg, states[i], events[i], id);
      UploadReturnsNever(cfg, states, events, i + 1, j, id);
    }
  }

  lemma UsedStep(cfg: Config, s: System, e: Event, id: string)
    requires Inv(cfg, s) && Possible(s, e) && ValidLimits(cfg.limits) && id in s.used
    ensures id in Next(cfg, s, e).used
    ensures id in Next(cfg, s, e).db.uploads ==> id in s.db.uploads
  {
    hide StoreOk, BudgetOk, CallOk, Transact;
    StoreStep(cfg, s, e);
  }

  // Concurrent completions

  ghost predicate CompletesAt(cfg: Config, states: seq<System>, events: seq<Event>, i: nat, id: string, media: string) {
    && i < |events| < |states|
    && ((events[i].BeginComplete? && events[i].id == id) || (events[i].FinishComplete? && events[i].call.upload == id))
    && Transact(cfg, states[i], events[i]).1 == Completed(media)
  }

  ghost predicate PublishedAs(s: System, id: string, media: string) {
    id in s.db.uploads && s.db.uploads[id].state == Complete && s.db.uploads[id].media == Some(media)
  }

  lemma CompletionPublishes(cfg: Config, s: System, e: Event, id: string, media: string)
    requires Inv(cfg, s) && Possible(s, e) && Transact(cfg, s, e).1 == Completed(media)
    requires (e.BeginComplete? && e.id == id) || (e.FinishComplete? && e.call.upload == id)
    ensures PublishedAs(Next(cfg, s, e), id, media)
    ensures forall m :: PublishedAs(s, id, m) ==> m == media
  {
    hide BudgetOk, TriggerAdmits, CallOk, StoreOk;
    if id in s.db.uploads { StoredUploadOk(s.db, id); }
  }

  lemma {:induction false} PublishedStays(
    cfg: Config, states: seq<System>, events: seq<Event>, i: nat, j: nat, id: string, media: string)
    requires IsRun(cfg, states, events) && ValidLimits(cfg.limits) && i <= j < |states|
      && PublishedAs(states[i], id, media)
    ensures PublishedAs(states[j], id, media)
    decreases j - i
  {
    hide Next, Transact, Inv;
    if i < j {
      assert StepAt(cfg, states, events, i);
      RunInv(cfg, states, events, i);
      InvStep(cfg, states[i], events[i]);
      PublishedStays(cfg, states, events, i + 1, j, id, media);
    }
  }

  /** The race itself: two clients have read every chunk, one publishes, and the other, whatever its own
      detected type and fresh id, is answered with the object of the first and stores nothing. */
  lemma SecondFinisherGetsFirstObject(
    cfg: Config, s: System, call: Completion, d: Option<string>, e: Option<string>, m: string, n: string)
    requires Inv(cfg, s) && Possible(s, FinishComplete(call, d, m)) && e.Some?
    requires Transact(cfg, s, FinishComplete(call, d, m)).1.Completed? && n !in s.used && n != m
    ensures var s' := Next(cfg, s, FinishComplete(call, d, m));
      && Possible(s', FinishComplete(call, e, n))
      && Transact(cfg, s', FinishComplete(call, e, n)) == (s'.db, Transact(cfg, s, FinishComplete(call, d, m)).1)
  {
    hide BudgetOk, StoreOk, TriggerAdmits, CallOk;
    if call.upload in s.db.uploads { StoredUploadOk(s.db, call.upload); }
  }

  /** All completions of one upload, however they interleave, return the same object. */
  lemma CompletionsAgree(
    cfg: Config, states: seq<System>, events: seq<Event>, i: nat, j: nat, id: string, m: string, n: string)
    requires IsRun(cfg, states, events) && ValidLimits(cfg.limits) && i < j
    requires CompletesAt(cfg, states, events, i, id, m) && CompletesAt(cfg, states, events, j, id, n)
    ensures m == n
  {
    hide Next, Transact, Inv, PublishedAs;
    assert StepAt(cfg, states, events, i) && StepAt(cfg, states, events, j);
    RunInv(cfg, states, events, i);
    RunInv(cfg, states, events, j);
    CompletionPublishes(cfg, states[i], events[i], id, m);
    PublishedStays(cfg, states, events, i + 1, j, id, m);
    CompletionPublishes(cfg, states[j], events[j], id, n);
  }

  /** A completion that has read every chunk is never refused for its length or for quota. */
  lemma CompletionNeverRefusedForSize(cfg: Config, states: seq<System>, events: seq<Event>, i: nat)
    requires IsRun(cfg, states, events) && ValidLimits(cfg.limits) && i < |events| && events[i].FinishComplete?
    ensures |events[i].call.content| == events[i].call.status.size
    ensures Transact(cfg, states[i], events[i]).1 != Refused(Quota)
  {
    hide Next, StoreOk, BudgetOk, CallOk, FinishCompleteTx;
    assert StepAt(cfg, states, events, i);
    RunInv(cfg, states, events, i);
    LengthAlwaysMatches(states[i].db, events[i].call);
    PublicationFits(states[i].db, cfg, states[i].clock, events[i].call, events[i].detected, events[i].media);
  }
}
