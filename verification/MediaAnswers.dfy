/** When the media store answers, and with what. Every answer over a run is tied, in both directions, to the
    columns of the rows and to the request. */
module MediaAnswers {
  import opened Options
  import opened MediaSpec
  import opened MediaInvariant
  import opened MediaBudget
  import opened MediaRuns

  const MIB: nat := 1048576

  /** The actor's own upload, in an enabled channel they are a member of, complete or not yet expired. */
  ghost predicate Seen(cfg: Config, s: System, actor: string, id: string) {
    && id in s.db.uploads
    && var row := s.db.uploads[id];
    && row.owner == actor && (row.channel, actor) in s.db.members
    && (cfg.channels.None? || row.channel in cfg.channels.value)
    && (row.state == Complete || s.clock < row.expires)
  }

  // Requests name uploads

  ghost predicate RequestsApart(s: System) {
    forall a, b :: a in s.db.uploads && b in s.db.uploads ==>
      (SameRequest(s.db.uploads[a], s.db.uploads[b]) ==> a == b)
  }

  predicate SameRequest(a: Upload, b: Upload) { a.owner == b.owner && a.request == b.request }

  // Creation

  /** Neither a C0 nor a C1 control character. */
  predicate Printing(c: char) { ' ' <= c < '\U{7F}' || '\U{A0}' <= c }

  /** The request is for an enabled channel of the actor, of an accepted type, with a usable name and size. */
  ghost predicate Admissible(cfg: Config, s: System, e: Event)
    requires e.Create?
  {
    && (cfg.channels.None? || e.channel in cfg.channels.value) && (e.channel, e.actor) in s.db.members
    && Accepted(e.input.contentType) && 1 <= e.input.size <= cfg.limits.maxFile
    && 1 <= |e.input.filename| <= 255
    && forall i :: 0 <= i < |e.input.filename| ==> Printing(e.input.filename[i])
  }

  ghost predicate Room(cfg: Config, s: System, e: Event)
    requires e.Create?
  {
    var charge := if e.input.size < MIB then MIB else e.input.size;
    && |Active(s.db)| < 64 && |ActiveOf(s.db, e.actor)| < 8
    && Sum(Ledger(s.db)) + charge <= cfg.limits.total
    && Sum(OfOwner(Ledger(s.db), e.actor)) + charge <= cfg.limits.owner
  }

  /** The row of the request, if it has one. */
  ghost predicate Holds(s: System, e: Event, id: string)
    requires e.Create?
  {
    id in s.db.uploads && s.db.uploads[id].owner == e.actor && s.db.uploads[id].request == e.input.request
  }

  predicate AskedFor(e: Event, row: Upload)
    requires e.Create?
  {
    && row.owner == e.actor && row.channel == e.channel && row.request == e.input.request
    && row.filename == e.input.filename && row.declared == e.input.contentType && row.size == e.input.size
  }

  /** A new request is stored exactly when it is admissible and there is room, as an empty open upload of
      what was asked for; a known one is answered with its visible upload exactly when it asks for the same. */
  ghost predicate CreateAnswer(cfg: Config, s: System, e: Event, db': Db, r: Reply)
    requires e.Create?
  {
    && ((forall id :: !Holds(s, e, id)) ==>
          && (r.Status? <==> Admissible(cfg, s, e) && Room(cfg, s, e))
          && (Admissible(cfg, s, e) && !Room(cfg, s, e) ==> r == Refused(Quota))
          && (r.Status? ==>
                && AskedFor(e, r.row) && r.row.received == 0 && r.row.nextChunk == 0 && r.row.state == Open
                && r.row.media.None? && r.row.expires == s.clock + 86400
                && db' == s.db.(uploads := s.db.uploads[e.id := r.row]))
          && (!r.Status? ==> r.Refused? && db' == s.db))
    && (forall id :: Holds(s, e, id) ==>
          && db' == s.db
          && (r.Status? <==> Admissible(cfg, s, e) && Seen(cfg, s, e.actor, id) && AskedFor(e, s.db.uploads[id]))
          && (r.Status? ==> r.row == s.db.uploads[id])
          && (Admissible(cfg, s, e) && Seen(cfg, s, e.actor, id) && !AskedFor(e, s.db.uploads[id]) ==>
                r == Refused(Conflict))
          && (!Admissible(cfg, s, e) || !Seen(cfg, s, e.actor, id) ==> r.Refused?))
  }

  lemma RoomIsBudget(cfg: Config, s: System, e: Event)
    requires e.Create? && ValidLimits(cfg.limits)
    ensures WithinBudget(s.db, cfg, e.actor, e.input.size) <==> Room(cfg, s, e)
  {
    hide Sum, Ledger, OfOwner, Active, ActiveOf;
  }

  lemma NewCreateAnswers(cfg: Config, s: System, e: Event)
    requires e.Create? && ValidLimits(cfg.limits) && forall id :: !Holds(s, e, id)
    ensures var (db', r) := CreateTx(s.db, cfg, s.clock, e.actor, e.channel, e.input, e.id);
      CreateAnswer(cfg, s, e, db', r)
  {
    hide WithinBudget, Room, Accepted;
    RoomIsBudget(cfg, s, e);
    assert forall id :: !HasRequest(s.db, e.actor, e.input.request, id) by {
      assert forall id :: HasRequest(s.db, e.actor, e.input.request, id) ==> Holds(s, e, id);
    }
  }

  lemma KnownCreateAnswers(cfg: Config, s: System, e: Event, id: string)
    requires e.Create? && RequestsApart(s) && Holds(s, e, id)
    ensures var (db', r) := CreateTx(s.db, cfg, s.clock, e.actor, e.channel, e.input, e.id);
      CreateAnswer(cfg, s, e, db', r)
  {
    hide WithinBudget, Room, Accepted, AdmitUpload;
    assert HasRequest(s.db, e.actor, e.input.request, id);
    assert forall other :: HasRequest(s.db, e.actor, e.input.request, other) ==>
      SameRequest(s.db.uploads[other], s.db.uploads[id]);
    assert forall other :: Holds(s, e, other) ==> SameRequest(s.db.uploads[other], s.db.uploads[id]);
  }

  lemma CreateAnswers(cfg: Config, s: System, e: Event)
    requires e.Create? && ValidLimits(cfg.limits) && RequestsApart(s)
    ensures var (db', r) := CreateTx(s.db, cfg, s.clock, e.actor, e.channel, e.input, e.id);
      CreateAnswer(cfg, s, e, db', r)
  {
    if id :| Holds(s, e, id) { KnownCreateAnswers(cfg, s, e, id); } else { NewCreateAnswers(cfg, s, e); }
    hide *;
  }

  // Chunks

  function ChunkLength(size: nat, index: nat): nat
    requires index * MIB < size
  {
    if size - index * MIB < MIB then size - index * MIB else MIB
  }

  /** A chunk is accepted exactly from one who sees the open upload, with its hash and its exact length, as the
      next chunk or as a repetition of a stored one; the next chunk is then stored under its index. */
  ghost predicate PutAnswer(cfg: Config, s: System, e: Event, db': Db, r: Reply)
    requires e.Put?
  {
    var fits := Seen(cfg, s, e.actor, e.id) && e.claimed == Sha256(e.bytes) && s.db.uploads[e.id].state == Open
                && e.index * MIB < s.db.uploads[e.id].size
                && |e.bytes| == ChunkLength(s.db.uploads[e.id].size, e.index);
    && (r.Status? <==>
          fits && (|| e.index == s.db.uploads[e.id].nextChunk
                   || (e.index < s.db.uploads[e.id].nextChunk && ChunkKey(e.id, e.index) in s.db.chunks
                       && s.db.chunks[ChunkKey(e.id, e.index)] == e.bytes)))
    && (fits && e.index == s.db.uploads[e.id].nextChunk ==>
          && var row := s.db.uploads[e.id];
          && r == Status(row.(nextChunk := row.nextChunk + 1, received := row.received + |e.bytes|))
          && db' == s.db.(
               uploads := s.db.uploads[e.id := r.row], chunks := s.db.chunks[ChunkKey(e.id, e.index) := e.bytes]))
    && (!(fits && e.index == s.db.uploads[e.id].nextChunk) ==>
          db' == s.db && (r.Refused? || (e.id in s.db.uploads && r == Status(s.db.uploads[e.id]))))
  }

  lemma PutAnswers(cfg: Config, s: System, e: Event)
    requires e.Put?
    ensures var (db', r) := PutTx(s.db, cfg, s.clock, e.actor, e.id, e.index, e.bytes, e.claimed);
      PutAnswer(cfg, s, e, db', r)
  {
  }

  // Sealing, completing and ending

  ghost predicate AllThere(s: System, id: string)
    requires id in s.db.uploads
  {
    forall i: nat :: i * MIB < s.db.uploads[id].size ==> ChunkKey(id, i) in s.db.chunks
  }

  /** The upload is sealed exactly when the actor sees it and every chunk is there. */
  ghost predicate Seals(cfg: Config, s: System, actor: string, id: string, db': Db, row: Upload) {
    && Seen(cfg, s, actor, id) && AllThere(s, id)
    && row == (if s.db.uploads[id].state == Open then s.db.uploads[id].(state := Sealed) else s.db.uploads[id])
    && db' == s.db.(uploads := s.db.uploads[id := row])
  }

  ghost predicate SealAnswer(cfg: Config, s: System, e: Event, db': Db, r: Reply)
    requires e.Seal?
  {
    && (r.Status? <==> Seen(cfg, s, e.actor, e.id) && AllThere(s, e.id))
    && (r.Status? ==> Seals(cfg, s, e.actor, e.id, db', r.row))
    && (!r.Status? ==> r.Refused? && db' == s.db)
  }

  lemma SealTells(cfg: Config, s: System, actor: string, id: string)
    requires StoreOk(s.db)
    ensures var (db', r) := SealTx(s.db, cfg, s.clock, actor, id);
      && (r.Status? || r.Refused?)
      && (r.Status? <==> Seen(cfg, s, actor, id) && AllThere(s, id))
      && (r.Status? ==> Seals(cfg, s, actor, id, db', r.row))
      && (!r.Status? ==> db' == s.db)
  {
    hide StoreOk, Content;
    if Seen(cfg, s, actor, id) { SealNeedsEveryChunk(s.db, cfg, s.clock, actor, id); }
  }

  /** A completion starts with a sealed upload, from its first chunk, unless it has been published. */
  ghost predicate CompleteBegins(cfg: Config, s: System, e: Event, db': Db, r: Reply)
    requires e.BeginComplete?
  {
    var ready := Seen(cfg, s, e.actor, e.id) && AllThere(s, e.id);
    && (ready && s.db.uploads[e.id].media.Some? ==>
          r == Completed(s.db.uploads[e.id].media.value) && db' == s.db)
    && (ready && s.db.uploads[e.id].media.None? ==>
          && r.Reading? && r.call.actor == e.actor && r.call.upload == e.id && r.call.index == 0 && r.call.content == []
          && Seals(cfg, s, e.actor, e.id, db', r.call.status))
    && (!ready ==> r.Refused? && db' == s.db)
  }

  lemma CompleteBeginAnswers(cfg: Config, s: System, e: Event)
    requires e.BeginComplete? && StoreOk(s.db)
    ensures var (db', r) := BeginCompleteTx(s.db, cfg, s.clock, e.actor, e.id); CompleteBegins(cfg, s, e, db', r)
  {
    hide StoreOk, SealTx, AllThere;
    SealTells(cfg, s, e.actor, e.id);
    if e.id in s.db.uploads { PublishedIsComplete(s, e.id); }
    assert e.id in s.db.uploads ==> s.db.uploads[e.id := s.db.uploads[e.id]] == s.db.uploads;
  }

  lemma PublishedIsComplete(s: System, id: string)
    requires StoreOk(s.db) && id in s.db.uploads
    ensures s.db.uploads[id].media.Some? <==> s.db.uploads[id].state == Complete
  {
    StoredUploadOk(s.db, id);
    hide StoreOk;
  }

  /** A reading goes on with the next stored chunk, for the owner and member, while the upload is sealed and
      unexpired, or complete. */
  ghost predicate ReadAnswer(s: System, e: Event, db': Db, r: Reply)
    requires e.ReadChunk?
  {
    var call, key := e.call, ChunkKey(e.call.upload, e.call.index);
    && db' == s.db
    && (r.Reading? <==>
          && call.upload in s.db.uploads && key in s.db.chunks
          && var row := s.db.uploads[call.upload];
          && row.owner == call.actor && (row.channel, call.actor) in s.db.members
          && (row.state == Complete || (row.state == Sealed && s.clock < row.expires)))
    && (r.Reading? ==>
          r.call == Completion(call.actor, call.upload, call.status, call.index + 1, call.content + s.db.chunks[key]))
    && (!r.Reading? ==> r == Refused(NotFound))
  }

  /** A full reading of acceptable bytes publishes the upload exactly when the actor still sees it: the object
      has the upload's owner, channel, filename and size, the detected type and the hash of what was read. */
  ghost predicate CompleteEnds(cfg: Config, s: System, e: Event, db': Db, r: Reply)
    requires e.FinishComplete?
  {
    var call := e.call;
    var finishes := e.detected.Some? && Seen(cfg, s, call.actor, call.upload);
    && (r.Completed? <==> finishes) && (r.Completed? || r.Refused?)
    && (finishes && s.db.uploads[call.upload].media.Some? ==>
          r == Completed(s.db.uploads[call.upload].media.value) && db' == s.db)
    && (finishes && s.db.uploads[call.upload].media.None? ==>
          && var row := s.db.uploads[call.upload];
          && r == Completed(e.media)
          && db' == s.db.(
               uploads := s.db.uploads[call.upload := row.(state := Complete, media := Some(e.media))],
               objects := s.db.objects[e.media := Media(
                 row.owner, row.channel, call.upload, row.filename, e.detected.value, row.size, Sha256(call.content))]))
    && (!finishes ==> db' == s.db)
  }

  lemma CompleteEndAnswers(cfg: Config, s: System, e: Event)
    requires e.FinishComplete? && Inv(cfg, s) && Possible(s, e)
    ensures var (db', r) := FinishCompleteTx(s.db, cfg, s.clock, e.call, e.detected, e.media);
      CompleteEnds(cfg, s, e, db', r)
  {
    hide StoreOk, BudgetOk, TriggerAdmits, Content;
    assert CallOk(s.db, e.call);
    LengthAlwaysMatches(s.db, e.call);
    PublicationFits(s.db, cfg, s.clock, e.call, e.detected, e.media);
    if e.call.upload in s.db.uploads { PublishedIsComplete(s, e.call.upload); }
  }

  /** Exactly an unfinished upload that the actor sees is aborted, with its chunks and nothing else. */
  ghost predicate AbortAnswer(cfg: Config, s: System, e: Event, db': Db, r: Reply)
    requires e.Abort?
  {
    && (r.Aborted? <==> Seen(cfg, s, e.actor, e.id) && s.db.uploads[e.id].state != Complete)
    && (r.Aborted? ==> Removes(s.db, db', {e.id}))
    && (!r.Aborted? ==> r.Refused? && db' == s.db)
  }

  /** Exactly the given uploads and their chunks are gone. */
  ghost predicate Removes(db: Db, db': Db, gone: set<string>) {
    && db'.objects == db.objects && db'.members == db.members
    && (forall id :: id in db'.uploads <==> id in db.uploads && id !in gone)
    && (forall id :: id in db'.uploads ==> db'.uploads[id] == db.uploads[id])
    && (forall k :: k in db'.chunks <==> k in db.chunks && k.upload !in gone)
    && (forall k :: k in db'.chunks ==> db'.chunks[k] == db.chunks[k])
  }

  ghost predicate CleanupAnswer(s: System, db': Db) {
    var uploads := s.db.uploads;
    Removes(s.db, db', set id | id in uploads && uploads[id].state != Complete && uploads[id].expires <= s.clock)
  }

  // Every answer of every run

  ghost predicate Answered(cfg: Config, s: System, e: Event, db': Db, r: Reply) {
    match e
    case Tick(_) => r == Done && db' == s.db
    case SetMembers(members) => r == Done && db' == s.db.(members := members)
    case Create(_, _, _, _) => CreateAnswer(cfg, s, e, db', r)
    case Put(_, _, _, _, _) => PutAnswer(cfg, s, e, db', r)
    case Seal(_, _) => SealAnswer(cfg, s, e, db', r)
    case BeginComplete(_, _) => CompleteBegins(cfg, s, e, db', r)
    case ReadChunk(_) => ReadAnswer(s, e, db', r)
    case FinishComplete(_, _, _) => CompleteEnds(cfg, s, e, db', r)
    case Abort(_, _) => AbortAnswer(cfg, s, e, db', r)
    case Cleanup => r == Done && CleanupAnswer(s, db')
  }

  lemma EventAnswered(cfg: Config, s: System, e: Event)
    requires Inv(cfg, s) && RequestsApart(s) && Possible(s, e) && ValidLimits(cfg.limits)
    ensures Answered(cfg, s, e, Transact(cfg, s, e).0, Transact(cfg, s, e).1)
  {
    hide StoreOk, BudgetOk, CallOk, RequestsApart;
    match e
    case Create(_, _, _, _) =>
      hide CreateTx, CreateAnswer;
      CreateAnswers(cfg, s, e);
    case Put(_, _, _, _, _) =>
      hide PutTx, PutAnswer;
      PutAnswers(cfg, s, e);
    case Seal(_, _) =>
      hide SealTx, Seals, AllThere, Seen;
      SealTells(cfg, s, e.actor, e.id);
    case BeginComplete(_, _) =>
      hide BeginCompleteTx, CompleteBegins;
      CompleteBeginAnswers(cfg, s, e);
    case FinishComplete(_, _, _) =>
      hide FinishCompleteTx, CompleteEnds;
      CompleteEndAnswers(cfg, s, e);
    case _ =>
  }

  // Requests name uploads, in every run

  /** An upload keeps what it was created with; only a create adds one, for a request that had none. */
  lemma UploadFrom(cfg: Config, s: System, e: Event, id: string)
    requires Inv(cfg, s) && Possible(s, e) && ValidLimits(cfg.limits) && RequestsApart(s)
    requires id in Next(cfg, s, e).db.uploads
    ensures id in s.db.uploads ==> CreatedAlike(s.db.uploads[id], Next(cfg, s, e).db.uploads[id])
    ensures id !in s.db.uploads ==>
      && e.Create? && e.id == id && Next(cfg, s, e).db.uploads[id].owner == e.actor
      && Next(cfg, s, e).db.uploads[id].request == e.input.request
      && forall other :: !Holds(s, e, other)
  {
    hide Transact, Inv, RequestsApart, AllThere, Admissible, Room;
    EventAnswered(cfg, s, e);
    if id in s.db.uploads { InUse(cfg, s, id); }
  }

  predicate CreatedAlike(a: Upload, b: Upload) {
    && a.owner == b.owner && a.channel == b.channel && a.request == b.request && a.filename == b.filename
    && a.declared == b.declared && a.size == b.size && a.expires == b.expires
  }

  lemma RequestsStayApart(cfg: Config, s: System, e: Event)
    requires Inv(cfg, s) && Possible(s, e) && ValidLimits(cfg.limits) && RequestsApart(s)
    ensures RequestsApart(Next(cfg, s, e))
  {
    hide Inv, Next, Possible;
    var s' := Next(cfg, s, e);
    forall a, b | a in s'.db.uploads && b in s'.db.uploads
      ensures SameRequest(s'.db.uploads[a], s'.db.uploads[b]) ==> a == b
    {
      UploadFrom(cfg, s, e, a);
      UploadFrom(cfg, s, e, b);
      assert a in s.db.uploads && b !in s.db.uploads ==> !Holds(s, e, a);
      assert b in s.db.uploads && a !in s.db.uploads ==> !Holds(s, e, b);
      assert a in s.db.uploads && b in s.db.uploads ==>
        (SameRequest(s.db.uploads[a], s.db.uploads[b]) ==> a == b);
    }
  }

  lemma {:induction false} ApartInRun(cfg: Config, states: seq<System>, events: seq<Event>, i: nat)
    requires IsRun(cfg, states, events) && ValidLimits(cfg.limits) && i < |states|
    ensures Inv(cfg, states[i]) && RequestsApart(states[i])
  {
    hide Inv, Next;
    RunInv(cfg, states, events, i);
    if i > 0 {
      ApartInRun(cfg, states, events, i - 1);
      assert StepAt(cfg, states, events, i - 1);
      RequestsStayApart(cfg, states[i - 1], events[i - 1]);
    }
  }

  /** Over every run every answer and every change is the one described for its event: given exactly under
      the stated condition on the rows, and with exactly the stated effect. */
  lemma EveryAnswer(cfg: Config, states: seq<System>, events: seq<Event>, i: nat)
    requires IsRun(cfg, states, events) && ValidLimits(cfg.limits) && i < |events|
    ensures Answered(cfg, states[i], events[i], states[i + 1].db, Transact(cfg, states[i], events[i]).1)
  {
    ApartInRun(cfg, states, events, i);
    assert StepAt(cfg, states, events, i);
    hide Inv, Answered, Transact, IsRun;
    EventAnswered(cfg, states[i], events[i]);
  }

  // Repeated requests

  /** While an upload exists it keeps what its create asked for. */
  lemma {:induction false} CreationStays(
    cfg: Config, states: seq<System>, events: seq<Event>, i: nat, j: nat, id: string)
    requires IsRun(cfg, states, events) && ValidLimits(cfg.limits) && i <= j < |states|
    requires id in states[i].db.uploads && id in states[j].db.uploads
    ensures CreatedAlike(states[i].db.uploads[id], states[j].db.uploads[id])
    decreases j - i
  {
    hide Next, Inv, RequestsApart;
    if i < j {
      assert StepAt(cfg, states, events, i);
      ApartInRun(cfg, states, events, i);
      InUse(cfg, states[i], id);
      UsedStep(cfg, states[i], events[i], id);
      UploadReturnsNever(cfg, states, events, i + 1, j, id);
      UploadFrom(cfg, states[i], events[i], id);
      CreationStays(cfg, states, events, i + 1, j, id);
    }
  }

  lemma InUse(cfg: Config, s: System, id: string)
    requires Inv(cfg, s) && id in s.db.uploads
    ensures id in s.used
  {
    hide StoreOk, BudgetOk, CallOk;
  }

  ghost predicate Known(s: System, e: Event)
    requires e.Create?
  {
    exists id :: Holds(s, e, id)
  }

  /** A create answered with an upload has stored, for its request, exactly that row: the one asked for. */
  lemma AcceptedIsStored(cfg: Config, states: seq<System>, events: seq<Event>, i: nat, id: string)
    requires IsRun(cfg, states, events) && ValidLimits(cfg.limits) && i < |events|
    requires events[i].Create? && Transact(cfg, states[i], events[i]).1.Status?
    ensures Known(states[i + 1], events[i])
    ensures Holds(states[i + 1], events[i], id) ==>
      && AskedFor(events[i], states[i + 1].db.uploads[id])
      && Transact(cfg, states[i], events[i]).1 == Status(states[i + 1].db.uploads[id])
  {
    hide Next, Inv, Transact, Admissible, Room, IsRun, Seen;
    Lengths(cfg, states, events);
    EveryAnswer(cfg, states, events, i);
    ApartInRun(cfg, states, events, i + 1);
    var e, s, s' := events[i], states[i], states[i + 1];
    if other :| Holds(s, e, other) {
      assert Holds(s', e, other);
    } else {
      assert Holds(s', e, e.id);
    }
    forall other | Holds(s', e, other) ensures forall id :: Holds(s', e, id) ==> id == other {
      forall id | Holds(s', e, id) ensures id == other {
        assert SameRequest(s'.db.uploads[id], s'.db.uploads[other]);
      }
    }
  }

  lemma Lengths(cfg: Config, states: seq<System>, events: seq<Event>)
    requires IsRun(cfg, states, events)
    ensures |states| == |events| + 1
  {
  }

  /** Over every run, once a create has been answered with an upload, repeating it while the upload exists and
      is visible is answered with the stored row and changes nothing; the same request for another channel,
      filename, type or size is a conflict. */
  lemma RepeatedCreateIsIdempotent(cfg: Config, states: seq<System>, events: seq<Event>, i: nat, j: nat, id: string)
    requires IsRun(cfg, states, events) && ValidLimits(cfg.limits) && i < j < |events|
    requires events[i].Create? && Transact(cfg, states[i], events[i]).1.Status?
    requires Holds(states[i + 1], events[i], id)
    requires events[j].Create? && events[j].actor == events[i].actor
      && events[j].input.request == events[i].input.request
    requires Seen(cfg, states[j], events[j].actor, id) && Admissible(cfg, states[j], events[j])
    ensures states[j + 1].db == states[j].db
    ensures Transact(cfg, states[j], events[j]).1 ==
      if events[j].channel == events[i].channel && events[j].input == events[i].input
      then Status(states[j].db.uploads[id]) else Refused(Conflict)
  {
    hide Next, Inv, RequestsApart, Transact, Admissible, Room, IsRun;
    Lengths(cfg, states, events);
    EveryAnswer(cfg, states, events, i);
    EveryAnswer(cfg, states, events, j);
    CreationStays(cfg, states, events, i + 1, j, id);
    assert AskedFor(events[i], states[i + 1].db.uploads[id]) by { AcceptedIsStored(cfg, states, events, i, id); }
    assert Holds(states[j], events[j], id);
  }
}
