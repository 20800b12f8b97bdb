/** What every call to the share inbox answers, exactly when, and what it leaves in the store, said on the rows
    and the request. */
module InboxAnswers {
  import opened Options
  import opened InboxSpec
  import opened InboxRuns

  predicate Ended(row: Receipt) { row.done.Some? && row.done.value != 0 }

  /** Two days for a share, seven for one that is being sent. */
  predicate Young(row: Receipt, now: int) {
    now - row.created < if row.admission.Some? then 604800000 else 172800000
  }

  predicate Acceptable(share: Share) {
    && (share.text != "" || share.file.Some?) && Utf8(share.text) <= 16000
    && (share.file.Some? ==>
          && share.file.value.size <= 36700160
          && share.file.value.kind in {
               "image/jpeg", "image/png", "image/gif", "image/webp", "image/heic", "image/avif"})
  }

  // What a capture finds

  function Later(rows: Receipts, now: int, id: nat): set<nat>
    requires id in rows && Ended(rows[id])
  {
    set other | other in rows && Young(rows[other], now) && Ended(rows[other])
      && (rows[other].done.value > rows[id].done.value || (rows[other].done.value == rows[id].done.value && other < id))
  }

  /** The row is young, and if it is finished, fewer than fifty young ones finished later. */
  predicate Remains(rows: Receipts, now: int, id: nat) {
    id in rows && Young(rows[id], now) && (Ended(rows[id]) ==> |Later(rows, now, id)| < 50)
  }

  predicate HasShare(rows: Receipts, share: Share, now: int, id: nat) {
    && id in rows && Young(rows[id], now) && rows[id].owner == share.owner && rows[id].hash == share.hash
    && (!Ended(rows[id]) || now - rows[id].done.value < 120000)
  }

  function Waiting(rows: Receipts, now: int): set<nat> {
    set id | id in rows && Young(rows[id], now) && !Ended(rows[id])
  }

  ghost predicate Full(rows: Receipts, share: Share, now: int) {
    |Waiting(rows, now)| >= 5 || Bytes(rows, Waiting(rows, now)) + Size(share.file) > 73400320
  }

  ghost predicate Cleaned(rows: Receipts, now: int, rows': Receipts, added: set<nat>) {
    && (forall id :: id in rows' <==> Remains(rows, now, id) || id in added)
    && (forall id :: id in rows' && id !in added ==> rows'[id] == rows[id])
  }

  /** The new receipt holds exactly what was shared, by whom, when and under which login. */
  predicate HoldsShare(row: Receipt, share: Share, revision: Revision, now: int) {
    && row.owner == share.owner && row.hash == share.hash && row.text == share.text && row.file == share.file
    && row.created == now && row.generation == revision && row.channel.None? && row.admission.None?
    && !row.rejected && row.done.None?
  }

  /** A share that some young row already has is answered with the first such row and not stored again; another
      one is stored exactly when there is room. Both drop old and surplus rows; a refusal drops nothing. */
  ghost predicate CaptureAnswer(db: Db, revision: Revision, op: Op, db': Db, a: Answer)
    requires op.Capture?
  {
    var rows, share, now := db.rows, op.share, op.now;
    db'.generation == db.generation &&
    if exists id :: HasShare(rows, share, now, id) then
      && a.Given? && HasShare(rows, share, now, a.id)
      && (forall id :: HasShare(rows, share, now, id) ==> a.id <= id)
      && Cleaned(rows, now, db'.rows, {})
    else if Full(rows, share, now) then a == TooMany && db' == db
    else
      && a == Given(op.newId) && Cleaned(rows, now, db'.rows, {op.newId})
      && HoldsShare(db'.rows[op.newId], share, revision, now)
  }

  // Calls on one receipt

  ghost predicate Mine(db: Db, id: nat, owner: Option<string>) {
    id in db.rows && db.rows[id].owner == owner && !Ended(db.rows[id])
  }

  /** The call replaces the one row and answers with it. */
  ghost predicate Replaces(db: Db, id: nat, row: Receipt, db': Db) { db' == db.(rows := db.rows[id := row]) }

  ghost predicate RowAnswer(db: Db, op: Op, db': Db, a: Answer)
    requires !op.Capture?
  {
    if op.Claim? then
      if Mine(db, op.id, op.owner) || Mine(db, op.id, None)
      then a == Updated(db.rows[op.id].(owner := op.owner)) && Replaces(db, op.id, a.row, db')
      else a == NotAvailable && db' == db
    else if !Mine(db, op.id, op.owner) then
      a == (if op.Owned? || op.Finish? then Done else NotAvailable) && db' == db
    else var row := db.rows[op.id];
      match op
      case Edit(_, _, text, channel) =>
        if row.admission.Some? then a == Locked && db' == db
        else if Utf8(text) > 16000 then a == BadShare && db' == db
        else a == Updated(row.(text := text, channel := channel)) && Replaces(db, op.id, a.row, db')
      case Admit(_, _, admission) =>
        if row.admission.Some? && row.admission != admission then a == Locked && db' == db
        else a == Updated(row.(admission := admission)) && Replaces(db, op.id, a.row, db')
      case Owned(_, _) => a == Done && Replaces(db, op.id, row.(file := None, rejected := false), db')
      case Reject(_, _) => a == Done && Replaces(db, op.id, row.(rejected := true), db')
      case Finish(_, _, now) => a == Done && Replaces(db, op.id, Tombstone(row, now), db')
      case Discard(_, _) =>
        if row.admission.Some? && !row.rejected then a == Locked && db' == db
        else a == Done && db' == db.(rows := db.rows - {op.id})
  }

  /** The content is gone, the owner, the hash and the request of an admission stay. */
  function Tombstone(row: Receipt, now: int): Receipt {
    Receipt(row.owner, row.generation, row.created, row.hash, "", None, row.channel,
            if row.admission.None? then None else Some(Admission("", "", [], row.admission.value.request)),
            row.rejected, Some(now))
  }

  // Every call

  /** A call with another generation than the store's and the caller's own changes nothing. */
  ghost predicate Answered(db: Db, local: nat, revision: Revision, op: Op, db': Db, a: Answer) {
    if op.Capture? && !Acceptable(op.share) then a == BadShare && db' == db
    else if revision.stored != db.generation || revision.local != local then a == LoginChanged && db' == db
    else if op.Capture? then CaptureAnswer(db, revision, op, db', a)
    else RowAnswer(db, op, db', a)
  }

  lemma EqualBytes(rows: Receipts, rows': Receipts, ids: set<nat>)
    requires ids <= rows.Keys && ids <= rows'.Keys && forall id :: id in ids ==> rows'[id] == rows[id]
    ensures Bytes(rows', ids) == Bytes(rows, ids)
  {
    SameBytes(rows, rows', ids);
    SameBytes(rows', rows, ids);
  }

  lemma WaitingIsUnfinished(rows: Receipts, now: int)
    ensures Unfinished(Live(rows, now)) == Waiting(rows, now)
    ensures Bytes(Live(rows, now), Unfinished(Live(rows, now))) == Bytes(rows, Waiting(rows, now))
  {
    assert Unfinished(Live(rows, now)) == Waiting(rows, now);
    EqualBytes(rows, Live(rows, now), Waiting(rows, now));
  }

  lemma TrimmedRemains(rows: Receipts, now: int)
    ensures Cleaned(rows, now, Trimmed(Live(rows, now)), {})
  {
    var live := Live(rows, now);
    forall id ensures id in Trimmed(live) <==> Remains(rows, now, id) {
      if id in live && Ended(rows[id]) { assert NewerThan(live, id) == Later(rows, now, id); }
    }
  }

  lemma HolderHasShare(rows: Receipts, share: Share, now: int, id: nat)
    ensures Holder(Live(rows, now), share, now, id) <==>
      HasShare(rows, share, now, id) && forall other :: HasShare(rows, share, now, other) ==> id <= other
  {
    forall other ensures HasShare(rows, share, now, other) <==>
      other in Live(rows, now) && Repeats(Live(rows, now)[other], share, now)
    {
    }
  }

  /** If rows have the share, one of them is the first. */
  lemma {:induction false} FirstWithShare(rows: Receipts, share: Share, now: int, id: nat) returns (first: nat)
    requires HasShare(rows, share, now, id)
    ensures HasShare(rows, share, now, first) && forall other :: HasShare(rows, share, now, other) ==> first <= other
  {
    first := id;
    if other: nat :| other < id && HasShare(rows, share, now, other) {
      first := FirstWithShare(rows, share, now, other);
    }
  }

  lemma CaptureAnswers(db: Db, revision: Revision, op: Op)
    requires op.Capture? && Acceptable(op.share) && revision.stored == db.generation
    ensures var (db', a) := CaptureTx(db, revision.local, revision, op.share, op.now, op.newId);
      CaptureAnswer(db, revision, op, db', a)
  {
    hide Trimmed, Live, Bytes, Unfinished, Waiting, Holder, HasShare, Remains, Utf8;
    var rows, share, now := db.rows, op.share, op.now;
    WaitingIsUnfinished(rows, now);
    TrimmedRemains(rows, now);
    forall id
      ensures Holder(Live(rows, now), share, now, id) <==>
        HasShare(rows, share, now, id) && forall other :: HasShare(rows, share, now, other) ==> id <= other
    {
      HolderHasShare(rows, share, now, id);
    }
    if id :| HasShare(rows, share, now, id) { var first := FirstWithShare(rows, share, now, id); }
  }

  lemma CallAnswers(db: Db, local: nat, revision: Revision, op: Op)
    ensures var (db', a) := Perform(db, local, revision, op); Answered(db, local, revision, op, db', a)
  {
    hide CaptureAnswer, Utf8;
    if op.Capture? && Acceptable(op.share) && revision == Revision(db.generation, local) {
      hide CaptureTx;
      CaptureAnswers(db, revision, op);
    }
  }

  /** Over every run every call is answered, and changes the store, as its rows and the request demand; a
      logout fences its own page when it begins and empties the store when it commits. */
  lemma EveryAnswer(states: seq<System>, events: seq<Event>, i: nat)
    requires IsRun(states, events) && i < |events|
    ensures var s, s', e := states[i], states[i + 1], events[i];
      match e
      case Open(realm) => s'.db == s.db && realm !in s.locals && s'.locals == s.locals[realm := 0]
      case Call(realm, revision, op) =>
        && s'.locals == s.locals && realm in s.locals
        && Answered(s.db, s.locals[realm], revision, op, s'.db, Perform(s.db, s.locals[realm], revision, op).1)
      case BeginLogout(realm) =>
        s'.db == s.db && realm in s.locals && s'.locals == s.locals[realm := s.locals[realm] + 1]
      case CommitLogout(_) => s'.locals == s.locals && s'.db == Db(map[], s.db.generation + 1)
  {
    hide Answered, Perform;
    var e := events[i];
    if e.Call? { CallAnswers(states[i].db, states[i].locals[e.realm], e.revision, e.op); }
  }

  /** A capture answered with its new id has stored the share under it. */
  lemma CapturedIsStored(states: seq<System>, events: seq<Event>, i: nat)
    requires IsRun(states, events) && i < |events| && events[i].Call? && events[i].op.Capture?
    requires events[i].realm in states[i].locals
    requires Perform(states[i].db, states[i].locals[events[i].realm], events[i].revision, events[i].op).1
      == Given(events[i].op.newId)
    ensures var op := events[i].op;
      op.newId in states[i + 1].db.rows
        && HoldsShare(states[i + 1].db.rows[op.newId], op.share, events[i].revision, op.now)
  {
    hide Perform, Bytes, Waiting, Remains, Utf8, Bounded;
    InboxIsBounded(states, events, i);
    EveryAnswer(states, events, i);
    var db, op := states[i].db, events[i].op;
    assert op.newId !in db.rows;
  }
}
