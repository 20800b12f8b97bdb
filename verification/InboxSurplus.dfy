/** A run in which a capture answers with a receipt that it has just dropped: fifty-one shares are
    captured and finished, and the first one is shared again within two minutes. */
module InboxSurplus {
  import opened Options
  import opened InboxSpec
  import opened InboxRuns

  const Rev := Revision(0, 0)
  const Me: Option<string> := Some("me")

  /** Shares are told apart by their hashes. */
  function ShareOf(i: nat): Share { Share(Me, "x", None, seq(i, _ => 'x')) }

  function FinishedRow(i: nat): Receipt {
    Receipt(Me, Rev, i + 1, ShareOf(i).hash, "", None, None, None, false, Some(i + 1))
  }

  function Rows(n: nat): Receipts { map i: nat | i < n :: FinishedRow(i) }

  function Ids(lo: nat, hi: nat): (ids: set<nat>)
    ensures forall i :: i in ids <==> lo <= i < hi
  {
    if lo >= hi then {} else Ids(lo, hi - 1) + {hi - 1}
  }

  /** The first n shares captured and finished. */
  function Filled(n: nat): System { System(Db(Rows(n), 0), map[0 := 0], Ids(0, n)) }

  function Pending(n: nat): System {
    System(Db(Rows(n)[n := NewReceipt(ShareOf(n), Rev, n + 1)], 0), map[0 := 0], Ids(0, n + 1))
  }

  function CaptureOf(i: nat, now: int, id: nat): Event { Call(0, Rev, Capture(ShareOf(i), now, id)) }

  function FinishOf(n: nat): Event { Call(0, Rev, Finish(n, Me, n + 1)) }

  lemma {:induction false} IdsCount(lo: nat, hi: nat)
    requires lo <= hi
    ensures |Ids(lo, hi)| == hi - lo
  {
    if lo < hi { IdsCount(lo, hi - 1); }
  }

  /** Row i has as many newer rows as there are after it. */
  lemma NewerRows(n: nat, i: nat)
    requires i < n
    ensures |NewerThan(Rows(n), i)| == n - i - 1
  {
    hide Ids;
    forall other ensures other in NewerThan(Rows(n), i) <==> other in Ids(i + 1, n) {}
    assert NewerThan(Rows(n), i) == Ids(i + 1, n);
    IdsCount(i + 1, n);
  }

  lemma NothingExpires(n: nat, now: int)
    requires n <= 51 && now <= 100
    ensures Live(Rows(n), now) == Rows(n)
  {
  }

  lemma NothingToTrim(n: nat)
    requires n <= 50
    ensures Trimmed(Rows(n)) == Rows(n)
  {
    forall i: nat | i < n ensures !Surplus(Rows(n), i) { NewerRows(n, i); }
  }

  lemma NothingRepeats(n: nat)
    ensures forall i :: i in Rows(n) ==> !Repeats(Rows(n)[i], ShareOf(n), n + 1)
  {
    forall i | i in Rows(n) ensures !Repeats(Rows(n)[i], ShareOf(n), n + 1) {
      assert |Rows(n)[i].hash| == i && |ShareOf(n).hash| == n;
    }
  }

  lemma NothingUnfinished(n: nat)
    ensures Unfinished(Rows(n)) == {}
  {
  }

  lemma ShareIsSendable(i: nat)
    ensures Sendable(ShareOf(i))
  {
    assert Utf8("x") == 1;
  }

  lemma IsStored(n: nat)
    requires n <= 50
    ensures CaptureTx(Db(Rows(n), 0), 0, Rev, ShareOf(n), n + 1, n)
         == (Db(Rows(n)[n := NewReceipt(ShareOf(n), Rev, n + 1)], 0), Given(n))
  {
    NothingExpires(n, n + 1);
    NothingToTrim(n);
    NothingRepeats(n);
    NothingUnfinished(n);
    ShareIsSendable(n);
    NobodyHolds(Rows(n), ShareOf(n), n + 1);
    hide Live, Trimmed, Holder, Unfinished, Sendable, Rows, NewReceipt;
  }

  lemma NobodyHolds(rows: Receipts, share: Share, now: int)
    requires forall i :: i in rows ==> !Repeats(rows[i], share, now)
    ensures forall i :: !Holder(rows, share, now, i)
  {
  }

  lemma Captures(n: nat)
    requires n <= 50
    ensures Enabled(Filled(n), CaptureOf(n, n + 1, n)) && Next(Filled(n), CaptureOf(n, n + 1, n)) == Pending(n)
  {
    hide CaptureTx, Rows, NewReceipt, Ids;
    IsStored(n);
    assert Ids(0, n) + {n} == Ids(0, n + 1);
  }

  lemma Finishes(n: nat)
    ensures Enabled(Pending(n), FinishOf(n)) && Next(Pending(n), FinishOf(n)) == Filled(n + 1)
  {
    assert Rows(n)[n := FinishedRow(n)] == Rows(n + 1);
  }

  lemma OneMore(states: seq<System>, events: seq<Event>, e: Event)
    requires IsRun(states, events) && Enabled(states[|events|], e)
    ensures IsRun(states + [Next(states[|events|], e)], events + [e])
  {
    hide Next, Enabled;
  }

  lemma {:induction false} FillUp(n: nat) returns (states: seq<System>, events: seq<Event>)
    requires n <= 51
    ensures IsRun(states, events) && |states| == |events| + 1 && states[|events|] == Filled(n)
  {
    if n == 0 {
      states, events := [Init, Filled(0)], [Open(0)];
      assert Rows(0) == map[] && Ids(0, 0) == {};
    } else {
      hide Next, Enabled, Filled, Pending, IsRun;
      states, events := FillUp(n - 1);
      Captures(n - 1);
      OneMore(states, events, CaptureOf(n - 1, n, n - 1));
      states, events := states + [Pending(n - 1)], events + [CaptureOf(n - 1, n, n - 1)];
      Finishes(n - 1);
      OneMore(states, events, FinishOf(n - 1));
      states, events := states + [Filled(n)], events + [FinishOf(n - 1)];
    }
  }

  /** A reachable state and a capture whose answer is not in the store. */
  lemma AnswerCanBeDropped() returns (states: seq<System>, events: seq<Event>, i: nat, answer: nat)
    ensures IsRun(states, events) && i < |events| && events[i].Call? && events[i].op.Capture?
    ensures events[i].realm in states[i].locals
    ensures Perform(states[i].db, states[i].locals[events[i].realm], events[i].revision, events[i].op).1 ==
      Given(answer)
    ensures answer in states[i].db.rows && answer !in states[i + 1].db.rows
  {
    states, events := FillUp(51);
    i, answer := |events|, 0;
    var e := CaptureOf(0, 52, 51);
    Repeated();
    FilledRealm(51);
    hide Next, Enabled, Filled, Perform, IsRun;
    OneMore(states, events, e);
    states, events := states + [Next(Filled(51), e)], events + [e];
  }

  lemma FilledRealm(n: nat)
    ensures Filled(n).locals == map[0 := 0]
  {
  }

  lemma Repeated()
    ensures var (db', answer) := Perform(Filled(51).db, 0, Rev, CaptureOf(0, 52, 51).op);
      answer == Given(0) && 0 in Filled(51).db.rows && 0 !in db'.rows
    ensures Enabled(Filled(51), CaptureOf(0, 52, 51))
    ensures Next(Filled(51), CaptureOf(0, 52, 51)).db == Perform(Filled(51).db, 0, Rev, CaptureOf(0, 52, 51).op).0
  {
    NothingExpires(51, 52);
    NewerRows(51, 0);
    assert Utf8("x") == 1;
    assert Holder(Rows(51), ShareOf(0), 52, 0);
    hide Live, Utf8, NewerThan;
  }
}
