/** The share inbox of one page or worker, over the browser's store. */
module InboxStore {
  import opened Options
  import opened InboxSpec

  class ShareInbox {
    var rows: Receipts
    var generation: nat
    var localGeneration: nat

    ghost function Stored(): Db
      reads this
    {
      Db(rows, generation)
    }

    constructor ()
      ensures Stored() == Db(map[], 0) && localGeneration == 0
    {
      rows, generation, localGeneration := map[], 0, 0;
    }

    /** The finished rows, newest first. */
    method SortDone(live: Receipts) returns (done: seq<nat>)
      ensures Ranked(live, done) && forall id :: id in done <==> id in live && IsDone(live[id])
    {
      done := [];
      var left := live.Keys;
      while left != {}
        invariant left <= live.Keys
        invariant Ranked(live, done)
        invariant forall id :: id in done <==> id in live && id !in left && IsDone(live[id])
        decreases left
      {
        var id :| id in left;
        left := left - {id};
        if IsDone(live[id]) { done := Place(live, done, id); }
      }
    }

    method Place(live: Receipts, done: seq<nat>, id: nat) returns (placed: seq<nat>)
      requires Ranked(live, done) && id in live && IsDone(live[id]) && id !in done
      ensures Ranked(live, placed) && forall other :: other in placed <==> other in done || other == id
    {
      var i := 0;
      while i < |done| && Newer(live, done[i], id)
        invariant i <= |done|
        invariant forall k :: 0 <= k < i ==> Newer(live, done[k], id)
      {
        i := i + 1;
      }
      placed := done[..i] + [id] + done[i..];
      assert done == done[..i] + done[i..];
    }

    method FindHolder(live: Receipts, share: Share, now: int) returns (holder: Option<nat>)
      ensures holder.Some? ==> Holder(live, share, now, holder.value)
      ensures holder.None? ==> forall id :: id in live ==> !Repeats(live[id], share, now)
    {
      holder := None;
      var left := live.Keys;
      while left != {}
        invariant left <= live.Keys
        invariant holder.Some? ==> holder.value in live && Repeats(live[holder.value], share, now)
        invariant forall id :: id in live && id !in left && Repeats(live[id], share, now) ==>
          holder.Some? && holder.value <= id
        decreases left
      {
        var id :| id in left;
        if Repeats(live[id], share, now) && (holder.None? || id < holder.value) { holder := Some(id); }
        left := left - {id};
      }
    }

    method PendingBytes(live: Receipts, pending: set<nat>) returns (total: nat)
      requires pending <= live.Keys
      ensures total == Bytes(live, pending)
    {
      total := 0;
      var left := pending;
      while left != {}
        invariant left <= pending
        invariant total + Bytes(live, left) == Bytes(live, pending)
        decreases left
      {
        var id :| id in left;
        BytesWithout(live, left, id);
        total := total + Size(live[id].file);
        left := left - {id};
      }
    }

    method Capture(share: Share, revision: Revision, now: int, id: nat) returns (answer: Answer)
      modifies this
      ensures (Stored(), answer) == CaptureTx(old(Stored()), old(localGeneration), revision, share, now, id)
      ensures localGeneration == old(localGeneration)
    {
      if !Sendable(share) { return BadShare; }
      if revision != Revision(generation, localGeneration) { return LoginChanged; }
      var before := rows;
      var live := Live(rows, now);
      rows := live;
      var done := SortDone(live);
      if |done| > MAX_DONE { rows := rows - set k | MAX_DONE <= k < |done| :: done[k]; }
      DropsSurplus(live, done);
      assert rows == Trimmed(live);
      var holder := FindHolder(live, share, now);
      if holder.Some? { return Given(holder.value); }
      var pending := Unfinished(live);
      var total := PendingBytes(live, pending);
      if |pending| >= MAX_PENDING || total + Size(share.file) > 2 * MAX_IMAGE {
        rows := before;
        return TooMany;
      }
      rows := rows[id := NewReceipt(share, revision, now)];
      return Given(id);
    }

    method Claim(id: nat, owner: Option<string>, revision: Revision) returns (answer: Answer)
      modifies this
      ensures (Stored(), answer) == ClaimTx(old(Stored()), old(localGeneration), id, owner, revision)
      ensures localGeneration == old(localGeneration)
    {
      if revision != Revision(generation, localGeneration) { return LoginChanged; }
      if id !in rows || IsDone(rows[id]) || (rows[id].owner.Some? && rows[id].owner != owner) { return NotAvailable; }
      rows := rows[id := rows[id].(owner := owner)];
      return Updated(rows[id]);
    }

    /** The receipt a call works on. */
    method Receipt(id: nat, owner: Option<string>, revision: Revision) returns (refusal: Option<Answer>)
      ensures refusal == if revision != Revision(generation, localGeneration) then Some(LoginChanged)
                         else if !Open(Stored(), id, owner) then Some(NotAvailable) else None
    {
      if revision != Revision(generation, localGeneration) { return Some(LoginChanged); }
      if id !in rows || rows[id].owner != owner || IsDone(rows[id]) { return Some(NotAvailable); }
      return None;
    }

    method Edit(
      id: nat, owner: Option<string>, revision: Revision, text: string, channel: Option<string>)
      returns (answer: Answer)
      modifies this
      ensures (Stored(), answer) == EditTx(old(Stored()), old(localGeneration), id, owner, revision, text, channel)
      ensures localGeneration == old(localGeneration)
    {
      var refusal := Receipt(id, owner, revision);
      if refusal.Some? { return refusal.value; }
      if rows[id].admission.Some? { return Locked; }
      if Utf8(text) > MAX_TEXT { return BadShare; }
      rows := rows[id := rows[id].(text := text, channel := channel)];
      return Updated(rows[id]);
    }

    method Admit(
      id: nat, owner: Option<string>, revision: Revision, admission: Option<Admission>)
      returns (answer: Answer)
      modifies this
      ensures (Stored(), answer) == AdmitTx(old(Stored()), old(localGeneration), id, owner, revision, admission)
      ensures localGeneration == old(localGeneration)
    {
      var refusal := Receipt(id, owner, revision);
      if refusal.Some? { return refusal.value; }
      if rows[id].admission.Some? && rows[id].admission != admission { return Locked; }
      rows := rows[id := rows[id].(admission := admission)];
      return Updated(rows[id]);
    }

    method Owned(id: nat, owner: Option<string>, revision: Revision) returns (answer: Answer)
      modifies this
      ensures (Stored(), answer) == OwnedTx(old(Stored()), old(localGeneration), id, owner, revision)
      ensures localGeneration == old(localGeneration)
    {
      var refusal := Receipt(id, owner, revision);
      if refusal == Some(LoginChanged) { return LoginChanged; }
      if refusal.None? { rows := rows[id := rows[id].(file := None, rejected := false)]; }
      return Done;
    }

    method Reject(id: nat, owner: Option<string>, revision: Revision) returns (answer: Answer)
      modifies this
      ensures (Stored(), answer) == RejectTx(old(Stored()), old(localGeneration), id, owner, revision)
      ensures localGeneration == old(localGeneration)
    {
      var refusal := Receipt(id, owner, revision);
      if refusal.Some? { return refusal.value; }
      rows := rows[id := rows[id].(rejected := true)];
      return Done;
    }

    method Finish(id: nat, owner: Option<string>, revision: Revision, now: int) returns (answer: Answer)
      modifies this
      ensures (Stored(), answer) == FinishTx(old(Stored()), old(localGeneration), id, owner, revision, now)
      ensures localGeneration == old(localGeneration)
    {
      var refusal := Receipt(id, owner, revision);
      if refusal == Some(LoginChanged) { return LoginChanged; }
      if refusal.None? { rows := rows[id := Closed(rows[id], now)]; }
      return Done;
    }

    method Discard(id: nat, owner: Option<string>, revision: Revision) returns (answer: Answer)
      modifies this
      ensures (Stored(), answer) == DiscardTx(old(Stored()), old(localGeneration), id, owner, revision)
      ensures localGeneration == old(localGeneration)
    {
      var refusal := Receipt(id, owner, revision);
      if refusal.Some? { return refusal.value; }
      if rows[id].admission.Some? && !rows[id].rejected { return Locked; }
      rows := rows - {id};
      return Done;
    }

    /** The counter moves at once; the store is cleared only when its transaction commits. */
    method Logout(commits: bool)
      modifies this
      ensures localGeneration == old(localGeneration) + 1
      ensures Stored() == if commits then LogoutTx(old(Stored())) else old(Stored())
    {
      localGeneration := localGeneration + 1;
      if commits { rows, generation := map[], generation + 1; }
    }
  }

  /** Finished rows in order, newest first. */
  ghost predicate Ranked(rows: Receipts, done: seq<nat>) {
    && (forall i :: 0 <= i < |done| ==> done[i] in rows && IsDone(rows[done[i]]))
    && (forall i, j :: 0 <= i < j < |done| ==> Newer(rows, done[i], done[j]))
  }

  /** In the sorted list the number of newer rows is the position. */
  lemma RankIsPosition(rows: Receipts, done: seq<nat>, k: nat)
    requires Ranked(rows, done) && k < |done|
    requires forall id :: id in done <==> id in rows && IsDone(rows[id])
    ensures |NewerThan(rows, done[k])| == k
  {
    assert NewerThan(rows, done[k]) == set i | 0 <= i < k :: done[i];
    PositionsCount(rows, done, k);
  }

  lemma {:induction false} PositionsCount(rows: Receipts, done: seq<nat>, k: nat)
    requires Ranked(rows, done) && k <= |done|
    ensures |set i | 0 <= i < k :: done[i]| == k
  {
    if k > 0 {
      PositionsCount(rows, done, k - 1);
      assert (set i | 0 <= i < k :: done[i]) == (set i | 0 <= i < k - 1 :: done[i]) + {done[k - 1]};
    }
  }

  /** The rows behind the fiftieth of the sorted list are the surplus. */
  lemma DropsSurplus(rows: Receipts, done: seq<nat>)
    requires Ranked(rows, done) && forall id :: id in done <==> id in rows && IsDone(rows[id])
    ensures Trimmed(rows) == rows - set k | MAX_DONE <= k < |done| :: done[k]
  {
    forall k | 0 <= k < |done| ensures Surplus(rows, done[k]) <==> MAX_DONE <= k { RankIsPosition(rows, done, k); }
    forall id | id in rows ensures Surplus(rows, id) <==> exists k :: MAX_DONE <= k < |done| && done[k] == id {
      if IsDone(rows[id]) { assert id in done; }
    }
  }
}
