/** The rollout that the backfill is for: replicas store messages, the new ones enqueuing in the same
    transaction and the old ones not, while a starting worker runs the six statements of the
    backfill, each committed on its own. */
module NotificationRuns {
  import opened Options
  import opened NotificationSpec

  const STATEMENTS: nat := 6

  function StatementAt(i: nat): Statement
    requires i < STATEMENTS
  {
    match i
    case 0 => MentionRows
    case 1 => DirectRows
    case 2 => GroupRows
    case 3 => ThreadRootRows
    case 4 => ThreadParticipantRows
    case _ => ChannelRows
  }

  /** How a message was stored: enqueued by its own transaction, or left for the backfill with so many
      statements already done. */
  datatype Mark = Enqueued | Late(stage: nat)

  datatype Event = Store(enqueues: bool) | RunStatement

  /** marks has one entry for each stored message; stage counts the statements done. */
  datatype Rollout = Rollout(marks: seq<Mark>, stage: nat, outbox: Outbox)

  const Init := Rollout([], 0, map[])

  ghost predicate Enabled(posts: seq<Posted>, s: Rollout, e: Event) {
    if e.Store? then |s.marks| < |posts| else s.stage < STATEMENTS
  }

  /** db holds the tables at the end; at any moment the messages stored so far are visible. */
  ghost function Next(db: Snapshot, posts: seq<Posted>, s: Rollout, e: Event): Rollout
    requires |s.marks| <= |posts| && Enabled(posts, s, e)
  {
    match e
    case Store(enqueues) =>
      var n := |s.marks| + 1;
      Rollout(s.marks + [if enqueues then Enqueued else Late(s.stage)], s.stage,
              if enqueues then Enqueue(Early(db, posts, n), s.outbox, posts[n - 1]) else s.outbox)
    case RunStatement =>
      Rollout(s.marks, s.stage + 1,
              InsertAbsent(s.outbox, BulkRows(Early(db, posts, |s.marks|), StatementAt(s.stage))))
  }

  // What a pair is owed by some of the statements

  /** The row of the first statement from lo up to hi that selects the pair. */
  function OwedBy(db: Snapshot, k: Key, lo: nat, hi: nat): Option<Row>
    requires hi <= STATEMENTS
    decreases hi - lo
  {
    if lo >= hi then None
    else if RowBy(db, StatementAt(lo), k).Some? then RowBy(db, StatementAt(lo), k)
    else OwedBy(db, k, lo + 1, hi)
  }

  lemma OwedByAll(db: Snapshot, k: Key)
    ensures OwedBy(db, k, 0, STATEMENTS) == Owed(db, k)
  {
    hide Applies;
    assert OwedBy(db, k, 5, 6) == RowBy(db, ChannelRows, k);
    assert OwedBy(db, k, 3, 6) ==
      if RowBy(db, ThreadRootRows, k).Some? then RowBy(db, ThreadRootRows, k)
      else if RowBy(db, ThreadParticipantRows, k).Some? then RowBy(db, ThreadParticipantRows, k)
      else RowBy(db, ChannelRows, k);
    assert OwedBy(db, k, 1, 6) ==
      if RowBy(db, DirectRows, k).Some? then RowBy(db, DirectRows, k)
      else if RowBy(db, GroupRows, k).Some? then RowBy(db, GroupRows, k)
      else OwedBy(db, k, 3, 6);
  }

  /** One statement more adds its row exactly where none was owed before. */
  lemma {:induction false} OwedByOneMore(db: Snapshot, k: Key, lo: nat, hi: nat)
    requires lo <= hi < STATEMENTS
    ensures OwedBy(db, k, lo, hi + 1) ==
      if OwedBy(db, k, lo, hi).Some? then OwedBy(db, k, lo, hi) else RowBy(db, StatementAt(hi), k)
    decreases hi - lo
  {
    hide RowBy;
    if lo < hi { OwedByOneMore(db, k, lo + 1, hi); }
  }

  /** What the pairs of message i have been given once stage statements are done. */
  function Given(db: Snapshot, k: Key, mark: Mark, stage: nat): Option<Row>
    requires stage <= STATEMENTS
  {
    if mark.Enqueued? then OwedBy(db, k, 0, STATEMENTS) else OwedBy(db, k, mark.stage, stage)
  }

  function At(outbox: Outbox, k: Key): Option<Row> { if k in outbox then Some(outbox[k]) else None }

  /** The final tables: every post is stored once, threads in order. */
  ghost predicate Posts(db: Snapshot, posts: seq<Posted>) {
    && InThreadOrder(posts) && Ids(posts) == db.messages.Keys
    && forall i :: 0 <= i < |posts| ==> Stored(db, posts[i])
  }

  ghost predicate Inv(db: Snapshot, posts: seq<Posted>, s: Rollout) {
    && |s.marks| <= |posts| && s.stage <= STATEMENTS
    && (forall i :: 0 <= i < |s.marks| && s.marks[i].Late? ==> s.marks[i].stage <= s.stage)
    && (forall i, k :: 0 <= i < |s.marks| && OfPost(posts, i, k) ==>
          At(s.outbox, k) == Given(db, k, s.marks[i], s.stage))
    && (forall k :: k in s.outbox ==> exists i :: 0 <= i < |s.marks| && OfPost(posts, i, k))
  }

  ghost predicate OfPost(posts: seq<Posted>, i: nat, k: Key) { i < |posts| && k.message == posts[i].id }

  lemma RowAsAtEnd(db: Snapshot, posts: seq<Posted>, n: nat, i: nat, k: Key, t: Statement)
    requires Posts(db, posts) && i < n <= |posts| && OfPost(posts, i, k)
    ensures RowBy(Early(db, posts, n), t, k) == RowBy(db, t, k)
  {
    hide Applies, InThreadOrder, Ids;
    AppliesAsAtEnd(db, posts, n, i, k, t);
  }

  /** Every pair a statement selects belongs to a stored post. */
  lemma SelectedIsStored(db: Snapshot, posts: seq<Posted>, n: nat, k: Key, t: Statement) returns (i: nat)
    requires n <= |posts| && RowBy(Early(db, posts, n), t, k).Some?
    ensures i < n && OfPost(posts, i, k)
  {
    hide BulkSelects;
    assert k.message in Ids(posts[..n]);
    i :| 0 <= i < n && posts[..n][i].id == k.message;
  }

  lemma StatementAdds(early: Snapshot, outbox: Outbox, t: Statement, k: Key)
    ensures At(InsertAbsent(outbox, BulkRows(early, t)), k) == if k in outbox then Some(outbox[k])
      else RowBy(early, t, k)
  {
    BulkRowAt(early, t, k);
    hide Applies, BulkRows;
  }

  /** A pair of a stored message after one more statement. */
  lemma StatementGives(db: Snapshot, k: Key, mark: Mark, stage: nat)
    requires stage < STATEMENTS && (mark.Late? ==> mark.stage <= stage)
    ensures Given(db, k, mark, stage + 1) ==
      if Given(db, k, mark, stage).Some? then Given(db, k, mark, stage) else RowBy(db, StatementAt(stage), k)
  {
    hide RowBy, OwedBy;
    if mark.Late? { OwedByOneMore(db, k, mark.stage, stage); } else { NoneLeft(db, k, 0, stage); }
  }

  /** A pair to which nothing is owed is selected by no statement. */
  lemma {:induction false} NoneLeft(db: Snapshot, k: Key, lo: nat, i: nat)
    requires lo <= i < STATEMENTS
    ensures OwedBy(db, k, lo, STATEMENTS).None? ==> RowBy(db, StatementAt(i), k).None?
    decreases i - lo
  {
    hide RowBy;
    if lo < i { NoneLeft(db, k, lo + 1, i); }
  }

  lemma StatementKeeps(db: Snapshot, posts: seq<Posted>, s: Rollout)
    requires Posts(db, posts) && Inv(db, posts, s) && s.stage < STATEMENTS
    ensures Inv(db, posts, Next(db, posts, s, RunStatement))
  {
    hide Posts, Early, BulkRows, OwedBy, RowBy, Given, InsertAbsent, OfPost, StatementAt;
    var n, t := |s.marks|, StatementAt(s.stage);
    var s' := Next(db, posts, s, RunStatement);
    forall i, k | 0 <= i < n && OfPost(posts, i, k) ensures At(s'.outbox, k) == Given(db, k, s'.marks[i], s'.stage) {
      StatementAdds(Early(db, posts, n), s.outbox, t, k);
      RowAsAtEnd(db, posts, n, i, k, t);
      StatementGives(db, k, s.marks[i], s.stage);
    }
    forall k | k in s'.outbox ensures exists i :: 0 <= i < n && OfPost(posts, i, k) {
      StatementAdds(Early(db, posts, n), s.outbox, t, k);
      if k !in s.outbox { var i := SelectedIsStored(db, posts, n, k, t); }
    }
  }

  /** What the enqueue of a new message gives its pairs, and nothing else. */
  lemma EnqueueGives(db: Snapshot, posts: seq<Posted>, n: nat, outbox: Outbox, k: Key)
    requires Posts(db, posts) && n < |posts|
    ensures var outbox' := Enqueue(Early(db, posts, n + 1), outbox, posts[n]);
      At(outbox', k) == if k in outbox then Some(outbox[k]) else if OfPost(posts, n, k)
        then OwedBy(db, k, 0, STATEMENTS) else None
  {
    StoredEarly(db, posts, n + 1, n);
    EnqueueFills(Early(db, posts, n + 1), outbox, posts[n]);
    OwedByAll(db, k);
    if OfPost(posts, n, k) { OwedSame(db, posts, n + 1, k); }
    hide Enqueue, Early, Owed, OwedBy, InThreadOrder, Ids;
  }

  lemma NewPostHasNoRows(db: Snapshot, posts: seq<Posted>, s: Rollout, k: Key)
    requires Posts(db, posts) && Inv(db, posts, s) && |s.marks| < |posts| && OfPost(posts, |s.marks|, k)
    ensures k !in s.outbox
  {
    hide Given;
    assert forall i :: 0 <= i < |s.marks| ==> posts[i].id != posts[|s.marks|].id;
  }

  lemma StoreGives(db: Snapshot, posts: seq<Posted>, s: Rollout, enqueues: bool, i: nat, k: Key)
    requires Posts(db, posts) && Inv(db, posts, s) && i <= |s.marks| < |posts| && OfPost(posts, i, k)
    ensures var s' := Next(db, posts, s, Store(enqueues));
      At(s'.outbox, k) == Given(db, k, s'.marks[i], s'.stage)
  {
    hide Posts, Enqueue, Early, OwedBy, Given;
    var n := |s.marks|;
    if enqueues { EnqueueGives(db, posts, n, s.outbox, k); }
    if i < n {
      PostsDiffer(db, posts, i, n);
    } else {
      NewPostHasNoRows(db, posts, s, k);
      NewGiven(db, k, s.stage);
    }
  }

  lemma PostsDiffer(db: Snapshot, posts: seq<Posted>, i: nat, n: nat)
    requires Posts(db, posts) && i < n < |posts|
    ensures posts[i].id != posts[n].id
  {
  }

  /** What a message is given at its storing: everything owed, or nothing yet. */
  lemma NewGiven(db: Snapshot, k: Key, stage: nat)
    requires stage <= STATEMENTS
    ensures Given(db, k, Enqueued, stage) == OwedBy(db, k, 0, STATEMENTS) && Given(db, k, Late(stage), stage) == None
  {
    hide RowBy;
  }

  lemma StoreKeeps(db: Snapshot, posts: seq<Posted>, s: Rollout, enqueues: bool)
    requires Posts(db, posts) && Inv(db, posts, s) && |s.marks| < |posts|
    ensures Inv(db, posts, Next(db, posts, s, Store(enqueues)))
  {
    hide Posts, Enqueue, Early, OwedBy, Given;
    var n, s' := |s.marks|, Next(db, posts, s, Store(enqueues));
    forall i, k | 0 <= i < n + 1 && OfPost(posts, i, k)
      ensures At(s'.outbox, k) == Given(db, k, s'.marks[i], s'.stage)
    {
      StoreGives(db, posts, s, enqueues, i, k);
    }
    forall k | k in s'.outbox ensures exists i :: 0 <= i < n + 1 && OfPost(posts, i, k) {
      if enqueues { EnqueueGives(db, posts, n, s.outbox, k); }
      if k in s.outbox { var i :| 0 <= i < n && OfPost(posts, i, k); } else { assert OfPost(posts, n, k); }
    }
  }

  ghost predicate IsRun(db: Snapshot, posts: seq<Posted>, states: seq<Rollout>, events: seq<Event>) {
    && |states| == |events| + 1 && states[0] == Init
    && forall i {:trigger events[i]} :: 0 <= i < |events| ==>
      && |states[i].marks| <= |posts| && Enabled(posts, states[i], events[i])
      && states[i + 1] == Next(db, posts, states[i], events[i])
  }

  lemma {:induction false} RunInv(db: Snapshot, posts: seq<Posted>, states: seq<Rollout>, events: seq<Event>, i: nat)
    requires Posts(db, posts) && IsRun(db, posts, states, events) && i < |states|
    ensures Inv(db, posts, states[i])
  {
    hide Posts, Next;
    if i > 0 {
      RunInv(db, posts, states, events, i - 1);
      hide Inv;
      match events[i - 1]
      case Store(enqueues) => StoreKeeps(db, posts, states[i - 1], enqueues);
      case RunStatement => StatementKeeps(db, posts, states[i - 1]);
    }
  }

  /** However storing and the six statements interleave, in the end a message that its own transaction
      enqueued, or that was stored before the first statement, has exactly the rows owed, each with its
      highest-priority kind; a message left for the backfill after stage statements has exactly what
      the remaining statements owe it. */
  lemma RolloutGivesWhatIsOwed(
    db: Snapshot, posts: seq<Posted>, states: seq<Rollout>, events: seq<Event>, i: nat, p: nat, k: Key)
    requires Posts(db, posts) && IsRun(db, posts, states, events) && i < |states| && states[i].stage == STATEMENTS
    requires p < |states[i].marks| && OfPost(posts, p, k)
    ensures var mark := states[i].marks[p];
      && (mark == Enqueued || mark == Late(0) ==> At(states[i].outbox, k) == Owed(db, k))
      && (mark.Late? ==> mark.stage <= STATEMENTS && At(states[i].outbox, k) == OwedBy(db, k, mark.stage, STATEMENTS))
  {
    hide Posts, Next, OwedBy, Owed;
    RunInv(db, posts, states, events, i);
    OwedByAll(db, k);
  }

  /** So the backfill bridges the rollout for a late message exactly when the statements it missed give
      the pair nothing better. */
  lemma LateMessageIsBridged(
    db: Snapshot, posts: seq<Posted>, states: seq<Rollout>, events: seq<Event>, i: nat, p: nat, k: Key)
    requires Posts(db, posts) && IsRun(db, posts, states, events) && i < |states| && states[i].stage == STATEMENTS
    requires p < |states[i].marks| && states[i].marks[p].Late? && OfPost(posts, p, k)
    ensures var stage := states[i].marks[p].stage;
      stage <= STATEMENTS && (At(states[i].outbox, k) == Owed(db, k) <==>
        OwedBy(db, k, 0, stage).None? || OwedBy(db, k, 0, stage) == OwedBy(db, k, stage, STATEMENTS))
  {
    hide Posts, Next, OwedBy, Owed, Applies;
    RolloutGivesWhatIsOwed(db, posts, states, events, i, p, k);
    OwedByAll(db, k);
    OwedByParts(db, k, 0, states[i].marks[p].stage);
  }

  lemma {:induction false} OwedByParts(db: Snapshot, k: Key, lo: nat, mid: nat)
    requires lo <= mid <= STATEMENTS
    ensures OwedBy(db, k, lo, STATEMENTS) == if OwedBy(db, k, lo, mid).Some? then OwedBy(db, k, lo, mid)
      else OwedBy(db, k, mid, STATEMENTS)
    decreases mid - lo
  {
    hide Applies;
    if lo < mid { OwedByParts(db, k, lo + 1, mid); }
  }

  // A late message that is not bridged

  lemma OneMore(db: Snapshot, posts: seq<Posted>, states: seq<Rollout>, events: seq<Event>, e: Event)
    requires IsRun(db, posts, states, events)
    requires |states[|events|].marks| <= |posts| && Enabled(posts, states[|events|], e)
    ensures IsRun(db, posts, states + [Next(db, posts, states[|events|], e)], events + [e])
  {
    hide Next, Enabled;
    var states', events' := states + [Next(db, posts, states[|events|], e)], events + [e];
    forall i | 0 <= i < |events'|
      ensures |states'[i].marks| <= |posts| && Enabled(posts, states'[i], events'[i])
      ensures states'[i + 1] == Next(db, posts, states'[i], events'[i])
    {
      if i < |events| { assert events[i] == events'[i]; }
    }
  }

  /** From any point of a run the remaining statements can follow at once. */
  lemma {:induction false} StatementsFollow(db: Snapshot, posts: seq<Posted>, states: seq<Rollout>, events: seq<Event>)
    returns (states': seq<Rollout>, events': seq<Event>)
    requires IsRun(db, posts, states, events) && |states[|events|].marks| <= |posts|
      && states[|events|].stage <= STATEMENTS
    ensures IsRun(db, posts, states', events') && states'[|events'|].marks == states[|events|].marks
    ensures states'[|events'|].stage == STATEMENTS
    decreases STATEMENTS - states[|events|].stage
  {
    states', events' := states, events;
    var last := states[|events|];
    if last.stage < STATEMENTS {
      OneMore(db, posts, states, events, RunStatement);
      states', events' := StatementsFollow(db, posts, states + [Next(db, posts, last, RunStatement)],
        events + [RunStatement]);
    }
  }

  const Mentioning := Posted(1, Message("channel", "sender", None, 1))

  /** One message that mentions a follower of its channel. */
  const Final := Snapshot(
    map[1 := Mentioning.message], {(1, "reader")}, map["device" := Subscription("reader", 0, 0)], map[], map[], {},
    {("channel", "reader")}, {"reader"}, map[("channel", "reader") := 0])

  const Pair := Key("device", 1)

  lemma MentionIsOwed()
    ensures Posts(Final, [Mentioning])
    ensures Owed(Final, Pair) == Some(Row("reader", Mention))
    ensures OwedBy(Final, Pair, 1, STATEMENTS) == Some(Row("reader", ChannelMessage))
  {
    var posts := [Mentioning];
    assert posts[0].id == 1 && Ids(posts) == {1};
    assert OwedBy(Final, Pair, 5, 6) == Some(Row("reader", ChannelMessage));
    assert OwedBy(Final, Pair, 3, 6) == OwedBy(Final, Pair, 5, 6);
    assert OwedBy(Final, Pair, 1, 6) == OwedBy(Final, Pair, 3, 6);
  }

  /** A run in which an old replica stores a message right after the first statement. */
  lemma LateRun(db: Snapshot, posts: seq<Posted>) returns (states: seq<Rollout>, events: seq<Event>)
    requires |posts| == 1
    ensures IsRun(db, posts, states, events) && |states| == |events| + 1
    ensures states[|events|].stage == STATEMENTS && states[|events|].marks == [Late(1)]
  {
    hide Early, BulkRows, Enqueue, InsertAbsent;
    var first := Next(db, posts, Init, RunStatement);
    var second := Next(db, posts, first, Store(false));
    states, events := [Init], [];
    OneMore(db, posts, states, events, RunStatement);
    states, events := states + [first], events + [RunStatement];
    OneMore(db, posts, states, events, Store(false));
    states, events := states + [second], events + [Store(false)];
    states, events := StatementsFollow(db, posts, states, events);
  }

  /** There is a run in which the backfill gives a message of an old replica a lower kind than it is owed:
      stored after the first statement, a mention ends up as a channel message. */
  lemma LateMentionIsDemoted() returns (states: seq<Rollout>, events: seq<Event>)
    ensures IsRun(Final, [Mentioning], states, events) && states[|events|].stage == STATEMENTS
    ensures Owed(Final, Pair) == Some(Row("reader", Mention))
    ensures At(states[|events|].outbox, Pair) == Some(Row("reader", ChannelMessage))
  {
    MentionIsOwed();
    hide Posts, IsRun, Owed, OwedBy, Next;
    var posts := [Mentioning];
    states, events := LateRun(Final, posts);
    RolloutGivesWhatIsOwed(Final, posts, states, events, |events|, 0, Pair);
  }
}
