/** Runs of the share inbox: any number of pages and workers over one store. */
module InboxRuns {
  import opened Options
  import opened InboxSpec

  /** locals holds the counter of each page or worker; drawn every receipt id ever given out. */
  datatype System = System(db: Db, locals: map<nat, nat>, drawn: set<nat>)

  datatype Op =
    | Capture(share: Share, now: int, newId: nat)
    | Claim(id: nat, owner: Option<string>)
    | Edit(id: nat, owner: Option<string>, text: string, channel: Option<string>)
    | Admit(id: nat, owner: Option<string>, admission: Option<Admission>)
    | Owned(id: nat, owner: Option<string>)
    | Reject(id: nat, owner: Option<string>)
    | Finish(id: nat, owner: Option<string>, now: int)
    | Discard(id: nat, owner: Option<string>)

  datatype Event =
    | Open(realm: nat)
    | Call(realm: nat, revision: Revision, op: Op)
    | BeginLogout(realm: nat)
    | CommitLogout(realm: nat)

  const Init := System(Db(map[], 0), map[], {})

  predicate Enabled(s: System, e: Event) {
    match e
    case Open(realm) => realm !in s.locals
    case Call(realm, _, op) => realm in s.locals && (op.Capture? ==> op.newId !in s.drawn)
    case BeginLogout(realm) => realm in s.locals
    case CommitLogout(realm) => realm in s.locals && s.locals[realm] > 0
  }

  ghost function Perform(db: Db, local: nat, revision: Revision, op: Op): (r: (Db, Answer)) {
    match op
    case Capture(share, now, id) => CaptureTx(db, local, revision, share, now, id)
    case Claim(id, owner) => ClaimTx(db, local, id, owner, revision)
    case Edit(id, owner, text, channel) => EditTx(db, local, id, owner, revision, text, channel)
    case Admit(id, owner, admission) => AdmitTx(db, local, id, owner, revision, admission)
    case Owned(id, owner) => OwnedTx(db, local, id, owner, revision)
    case Reject(id, owner) => RejectTx(db, local, id, owner, revision)
    case Finish(id, owner, now) => FinishTx(db, local, id, owner, revision, now)
    case Discard(id, owner) => DiscardTx(db, local, id, owner, revision)
  }

  ghost function Next(s: System, e: Event): System
    requires Enabled(s, e)
  {
    match e
    case Open(realm) => s.(locals := s.locals[realm := 0])
    case Call(realm, revision, op) =>
      s.(db := Perform(s.db, s.locals[realm], revision, op).0,
         drawn := if op.Capture? then s.drawn + {op.newId} else s.drawn)
    case BeginLogout(realm) => s.(locals := s.locals[realm := s.locals[realm] + 1])
    case CommitLogout(_) => s.(db := LogoutTx(s.db))
  }

  // Bounds

  ghost predicate Bounded(rows: Receipts) {
    && |Unfinished(rows)| <= MAX_PENDING
    && |rows.Keys| <= MAX_PENDING + MAX_DONE
    && Bytes(rows, rows.Keys) <= 2 * MAX_IMAGE
  }

  ghost predicate Inv(s: System) {
    && Bounded(s.db.rows)
    && (forall id :: id in s.db.rows ==> id in s.drawn)
    && (forall id :: id in s.db.rows && IsDone(s.db.rows[id]) ==> s.db.rows[id].file.None?)
  }

  /** Fewer rows, each smaller and finished if it was, stay within the bounds. */
  lemma ShrinksWithin(rows: Receipts, rows': Receipts)
    requires Bounded(rows) && rows'.Keys <= rows.Keys
    requires forall id :: id in rows' ==>
      Size(rows'[id].file) <= Size(rows[id].file) && (IsDone(rows[id]) ==> IsDone(rows'[id]))
    ensures Bounded(rows')
  {
    SubsetCounts(Unfinished(rows'), Unfinished(rows));
    SubsetCounts(rows'.Keys, rows.Keys);
    SameBytes(rows, rows', rows'.Keys);
    FewerBytes(rows, rows'.Keys, rows.Keys);
  }

  lemma TrimmedWithin(rows: Receipts, now: int)
    requires Bounded(rows)
    ensures Bounded(Trimmed(Live(rows, now)))
  {
    ShrinksWithin(rows, Trimmed(Live(rows, now)));
  }

  lemma UnionCounts(few: set<nat>, more: set<nat>, id: nat)
    ensures |few + more + {id}| <= |few| + |more| + 1
    ensures |few + {id}| <= |few| + 1
  {
    assert few + more == few + (more - few);
    assert (more - few) + (more * few) == more;
  }

  /** A capture that the limits let through leaves the store within them. */
  lemma CaptureWithin(live: Receipts, id: nat, row: Receipt)
    requires id !in live && !IsDone(row)
    requires forall other :: other in live && IsDone(live[other]) ==> live[other].file.None?
    requires |Unfinished(live)| < MAX_PENDING && Bytes(live, Unfinished(live)) + Size(row.file) <= 2 * MAX_IMAGE
    ensures Bounded(Trimmed(live)[id := row])
  {
    TrimmedIsBounded(live);
    TrimmedIsPart(live);
    hide Trimmed, Bounded, Unfinished, Bytes;
    PartWithin(live, Trimmed(live), id, row);
  }

  lemma TrimmedIsPart(live: Receipts)
    ensures Trimmed(live).Keys <= live.Keys && Unfinished(Trimmed(live)) == Unfinished(live)
    ensures forall id :: id in Trimmed(live) ==> Trimmed(live)[id] == live[id]
  {
  }

  lemma PartWithin(live: Receipts, kept: Receipts, id: nat, row: Receipt)
    requires id !in live && !IsDone(row)
    requires forall other :: other in live && IsDone(live[other]) ==> live[other].file.None?
    requires kept.Keys <= live.Keys && Unfinished(kept) == Unfinished(live)
      && |kept.Keys - Unfinished(live)| <= MAX_DONE
    requires forall other :: other in kept ==> kept[other] == live[other]
    requires |Unfinished(live)| < MAX_PENDING && Bytes(live, Unfinished(live)) + Size(row.file) <= 2 * MAX_IMAGE
    ensures Bounded(kept[id := row])
  {
    assert kept[id := row].Keys == kept.Keys + {id};
    CaptureCounts(kept, id, row);
    CaptureBytes(live, kept, id, row);
    hide Unfinished, Bytes;
  }

  lemma CaptureCounts(kept: Receipts, id: nat, row: Receipt)
    requires id !in kept && !IsDone(row)
    requires |Unfinished(kept)| < MAX_PENDING && |kept.Keys - Unfinished(kept)| <= MAX_DONE
    ensures |Unfinished(kept[id := row])| <= MAX_PENDING
    ensures |kept.Keys + {id}| <= MAX_PENDING + MAX_DONE
  {
    assert Unfinished(kept[id := row]) == Unfinished(kept) + {id};
    assert kept.Keys + {id} == Unfinished(kept) + (kept.Keys - Unfinished(kept)) + {id};
    UnionCounts(Unfinished(kept), kept.Keys - Unfinished(kept), id);
  }

  lemma CaptureBytes(live: Receipts, kept: Receipts, id: nat, row: Receipt)
    requires id !in live && Unfinished(kept) == Unfinished(live) && kept.Keys <= live.Keys
    requires forall other :: other in kept ==> kept[other] == live[other]
    requires forall other :: other in live && IsDone(live[other]) ==> live[other].file.None?
    ensures Bytes(kept[id := row], kept.Keys + {id}) <= Bytes(live, Unfinished(live)) + Size(row.file)
  {
    var rows' := kept[id := row];
    BytesWithout(rows', rows'.Keys, id);
    assert rows'.Keys == kept.Keys + {id} && rows'.Keys - {id} == kept.Keys;
    SameBytes(live, rows', kept.Keys);
    FewerBytes(live, Unfinished(live), kept.Keys);
  }

  // One call

  /** What a call on a receipt may do to it. */
  ghost predicate Evolves(op: Op, id: nat, row: Receipt, row': Receipt) {
    || row' == row
    || (&& !op.Capture? && op.id == id && !IsDone(row)
        && (row.owner.Some? ==> row'.owner == row.owner)
        && Size(row'.file) <= Size(row.file)
        && (IsDone(row') ==> row'.file.None?)
        && (row.admission.Some? && !op.Finish? ==>
              row'.text == row.text && row'.admission == row.admission && !IsDone(row')))
  }

  /** A call on a receipt removes nothing but a receipt discarded by its owner, adds nothing, and
      changes one receipt as it may. */
  lemma RowFate(db: Db, local: nat, revision: Revision, op: Op)
    requires !op.Capture?
    ensures var rows' := Perform(db, local, revision, op).0.rows;
      && rows'.Keys <= db.rows.Keys
      && (forall id :: id in rows' ==> Evolves(op, id, db.rows[id], rows'[id]))
      && (forall id :: id in db.rows && id !in rows' ==>
            op.Discard? && op.id == id && !IsDone(db.rows[id])
              && (db.rows[id].admission.Some? ==> db.rows[id].rejected))
  {
  }

  datatype CaptureCase = Untouched | Cleaned | Added

  /** A capture leaves the store alone, drops what is too old or surplus, or does so and adds one
      receipt within the limits. */
  lemma CaptureFate(db: Db, local: nat, revision: Revision, op: Op) returns (c: CaptureCase)
    requires op.Capture?
    ensures var live := Live(db.rows, op.now);
      var rows' := Perform(db, local, revision, op).0.rows;
      match c
      case Untouched => rows' == db.rows
      case Cleaned => rows' == Trimmed(live)
      case Added =>
        && rows' == Trimmed(live)[op.newId := NewReceipt(op.share, revision, op.now)]
        && |Unfinished(live)| < MAX_PENDING && Bytes(live, Unfinished(live)) + Size(op.share.file) <= 2 * MAX_IMAGE
  {
    hide Trimmed, Live, Bytes;
    var live := Live(db.rows, op.now);
    if !Sendable(op.share) || revision != Revision(db.generation, local) { return Untouched; }
    if holder :| Holder(live, op.share, op.now, holder) { return Cleaned; }
    if |Unfinished(live)| >= MAX_PENDING || Bytes(live, Unfinished(live)) + Size(op.share.file) > 2 * MAX_IMAGE {
      return Untouched;
    }
    return Added;
  }

  lemma CaptureKeeps(s: System, e: Event)
    requires Inv(s) && Enabled(s, e) && e.Call? && e.op.Capture?
    ensures Inv(Next(s, e))
  {
    var live := Live(s.db.rows, e.op.now);
    var c := CaptureFate(s.db, s.locals[e.realm], e.revision, e.op);
    hide Perform, Bounded;
    TrimmedWithin(s.db.rows, e.op.now);
    if c.Added? { CaptureWithin(live, e.op.newId, NewReceipt(e.op.share, e.revision, e.op.now)); }
  }

  lemma InvKept(s: System, e: Event)
    requires Inv(s) && Enabled(s, e)
    ensures Inv(Next(s, e))
  {
    if e.Call? && e.op.Capture? {
      CaptureKeeps(s, e);
    } else if e.Call? {
      RowFate(s.db, s.locals[e.realm], e.revision, e.op);
      hide Perform;
      ShrinksWithin(s.db.rows, Next(s, e).db.rows);
    }
  }

  // Whole runs

  ghost predicate IsRun(states: seq<System>, events: seq<Event>) {
    && |states| == |events| + 1 && states[0] == Init
    && forall i {:trigger events[i]} :: 0 <= i < |events| ==>
      Enabled(states[i], events[i]) && states[i + 1] == Next(states[i], events[i])
  }

  /** Over every run the inbox holds at most five unfinished receipts, at most fifty-five in all and
      at most seventy mebibytes of files. */
  lemma {:induction false} InboxIsBounded(states: seq<System>, events: seq<Event>, i: nat)
    requires IsRun(states, events) && i < |states|
    ensures Inv(states[i])
    ensures var rows := states[i].db.rows;
      |Unfinished(rows)| <= 5 && |rows.Keys| <= 55 && Bytes(rows, rows.Keys) <= 70 * 1024 * 1024
  {
    if i == 0 {
      InitInv();
    } else {
      hide Next, Enabled;
      InboxIsBounded(states, events, i - 1);
      assert events[i - 1] == events[i - 1];
      InvKept(states[i - 1], events[i - 1]);
    }
  }

  lemma InitInv()
    ensures Inv(Init)
  {
  }

  /** What becomes of a receipt in one step. */
  ghost predicate Fate(s: System, e: Event, id: nat, row: Receipt, rows': Receipts) {
    if id in rows' then row == rows'[id] || (e.Call? && Evolves(e.op, id, row, rows'[id]))
    else
      || e.CommitLogout?
      || (e.Call? && e.op.Capture? && (!Retained(row, e.op.now) || IsDone(row)))
      || (e.Call? && e.op.Discard? && e.op.id == id && (row.admission.Some? ==> row.rejected))
  }

  lemma ReceiptFate(s: System, e: Event, id: nat)
    requires Inv(s) && Enabled(s, e) && id in s.db.rows
    ensures Fate(s, e, id, s.db.rows[id], Next(s, e).db.rows) && id in Next(s, e).drawn
  {
    hide Bounded;
    if e.Call? && e.op.Capture? {
      var c := CaptureFate(s.db, s.locals[e.realm], e.revision, e.op);
    } else if e.Call? {
      RowFate(s.db, s.locals[e.realm], e.revision, e.op);
      hide Perform;
    }
  }

  /** A receipt that is gone stays gone. */
  lemma GoneStays(s: System, e: Event, id: nat)
    requires Inv(s) && Enabled(s, e) && id in s.drawn && id !in s.db.rows
    ensures id in Next(s, e).drawn && id !in Next(s, e).db.rows
  {
    hide Bounded;
    if e.Call? && e.op.Capture? {
      var c := CaptureFate(s.db, s.locals[e.realm], e.revision, e.op);
    } else if e.Call? {
      RowFate(s.db, s.locals[e.realm], e.revision, e.op);
      hide Perform;
    }
  }

  lemma {:induction false} GoneForever(states: seq<System>, events: seq<Event>, i: nat, j: nat, id: nat)
    requires IsRun(states, events) && i <= j < |states| && id in states[i].drawn && id !in states[i].db.rows
    ensures id !in states[j].db.rows
    decreases j - i
  {
    hide Next, Enabled, Inv;
    if i < j {
      InboxIsBounded(states, events, i);
      assert events[i] == events[i];
      GoneStays(states[i], events[i], id);
      GoneForever(states, events, i + 1, j, id);
    }
  }

  /** An owner, once set, is the owner of the receipt for as long as it exists. */
  lemma {:induction false} OwnerIsFixed(states: seq<System>, events: seq<Event>, i: nat, j: nat, id: nat)
    requires IsRun(states, events) && i <= j < |states|
    requires id in states[i].db.rows && states[i].db.rows[id].owner.Some? && id in states[j].db.rows
    ensures states[j].db.rows[id].owner == states[i].db.rows[id].owner
    decreases j - i
  {
    hide Next, Enabled, Inv;
    if i < j {
      InboxIsBounded(states, events, i);
      assert events[i] == events[i];
      ReceiptFate(states[i], events[i], id);
      if id in states[i + 1].db.rows { OwnerIsFixed(states, events, i + 1, j, id); }
      else { GoneForever(states, events, i + 1, j, id); }
    }
  }

  ghost predicate Finishes(e: Event, id: nat) { e.Call? && e.op.Finish? && e.op.id == id }

  /** An admitted, unfinished receipt keeps its text and its admission until a finish of it, as long
      as it exists. */
  lemma {:induction false} AdmittedIsKept(states: seq<System>, events: seq<Event>, i: nat, j: nat, id: nat)
    requires IsRun(states, events) && i <= j < |states| && id in states[i].db.rows && id in states[j].db.rows
    requires states[i].db.rows[id].admission.Some? && !IsDone(states[i].db.rows[id])
    requires forall k {:trigger events[k]} :: i <= k < j ==> !Finishes(events[k], id)
    ensures states[j].db.rows[id].text == states[i].db.rows[id].text
    ensures states[j].db.rows[id].admission == states[i].db.rows[id].admission
    ensures !IsDone(states[j].db.rows[id])
    decreases j - i
  {
    hide Next, Enabled, Inv;
    if i < j {
      InboxIsBounded(states, events, i);
      assert !Finishes(events[i], id);
      ReceiptFate(states[i], events[i], id);
      if id in states[i + 1].db.rows { AdmittedIsKept(states, events, i + 1, j, id); }
      else { GoneForever(states, events, i + 1, j, id); }
    }
  }

  /** An admitted, unfinished receipt disappears only by a logout, after seven days, or when its
      owner discards it after a rejection. */
  lemma AdmittedLeavesOnly(states: seq<System>, events: seq<Event>, i: nat, id: nat)
    requires IsRun(states, events) && i < |events| && id in states[i].db.rows && id !in states[i + 1].db.rows
    requires states[i].db.rows[id].admission.Some? && !IsDone(states[i].db.rows[id])
    ensures
      || events[i].CommitLogout?
      || (events[i].Call? && events[i].op.Capture? && events[i].op.now - states[i].db.rows[id].created >= ADMITTED_AGE)
      || (events[i].Call? && events[i].op.Discard? && events[i].op.id == id && states[i].db.rows[id].rejected)
  {
    hide Next, Enabled, Inv;
    InboxIsBounded(states, events, i);
    assert events[i] == events[i];
    ReceiptFate(states[i], events[i], id);
  }

  // Logout

  /** A call with another revision than the current one changes nothing. */
  lemma WrongRevision(db: Db, local: nat, revision: Revision, op: Op)
    requires revision != Revision(db.generation, local)
    ensures Perform(db, local, revision, op).0 == db
    ensures Perform(db, local, revision, op).1 == LoginChanged || Perform(db, local, revision, op).1 == BadShare
  {
  }

  lemma GenerationKept(db: Db, local: nat, revision: Revision, op: Op)
    ensures Perform(db, local, revision, op).0.generation == db.generation
  {
  }

  lemma {:induction false} GenerationsRise(states: seq<System>, events: seq<Event>, i: nat, j: nat)
    requires IsRun(states, events) && i <= j < |states|
    ensures states[i].db.generation <= states[j].db.generation
    ensures forall realm :: realm in states[i].locals ==>
      realm in states[j].locals && states[i].locals[realm] <= states[j].locals[realm]
    decreases j - i
  {
    hide Perform;
    if i < j {
      assert events[i] == events[i];
      if events[i].Call? {
        GenerationKept(states[i].db, states[i].locals[events[i].realm], events[i].revision, events[i].op);
      }
      GenerationsRise(states, events, i + 1, j);
    }
  }

  /** After a logout has committed, no call of any page or worker carrying a generation from before
      it takes effect. */
  lemma LogoutFences(states: seq<System>, events: seq<Event>, i: nat, j: nat)
    requires IsRun(states, events) && i < j < |events| && events[i].CommitLogout?
    requires events[j].Call? && events[j].revision.stored <= states[i].db.generation
    ensures states[j + 1].db == states[j].db
  {
    assert events[i] == events[i] && events[j] == events[j];
    GenerationsRise(states, events, i + 1, j);
    WrongRevision(states[j].db, states[j].locals[events[j].realm], events[j].revision, events[j].op);
  }

  /** Within one page or worker the fence falls as soon as logout is called, whether or not the
      store's own transaction ever commits. */
  lemma LogoutFencesAtOnce(states: seq<System>, events: seq<Event>, i: nat, j: nat)
    requires IsRun(states, events) && i < j < |events| && events[i].BeginLogout?
    requires events[j].Call? && events[j].realm == events[i].realm
    requires events[i].realm in states[i].locals && events[j].revision.local <= states[i].locals[events[i].realm]
    ensures states[j + 1].db == states[j].db
  {
    assert events[i] == events[i] && events[j] == events[j];
    GenerationsRise(states, events, i + 1, j);
    WrongRevision(states[j].db, states[j].locals[events[j].realm], events[j].revision, events[j].op);
  }

  // What a capture answers

  /** A capture answers with an id that is not in the store afterwards exactly when the share is
      already held by a finished row that fifty newer ones push out of the very same store. */
  lemma CaptureAnswerIsStored(db: Db, local: nat, revision: Revision, op: Op)
    requires op.Capture? && op.newId !in db.rows && Perform(db, local, revision, op).1.Given?
    ensures var (db', answer) := Perform(db, local, revision, op);
      answer.id !in db'.rows <==> HeldBySurplus(Live(db.rows, op.now), op.share, op.now)
  {
    hide Surplus;
    var live := Live(db.rows, op.now);
    if h :| Holder(live, op.share, op.now, h) {
      var holder :| Holder(live, op.share, op.now, holder)
        && Perform(db, local, revision, op) == (db.(rows := Trimmed(live)), Given(holder));
      assert h == holder;
    }
  }

  ghost predicate HeldBySurplus(live: Receipts, share: Share, now: int) {
    exists h :: Holder(live, share, now, h) && Surplus(live, h)
  }
}
