/** Who is notified of a message, and why, said from the user's side: mentioned in it, the other member of its
    direct conversation, a human in its group, an earlier writer in its thread, or a follower of its channel. */
module NotificationReasons {
  import opened Options
  import opened NotificationSpec
  import opened NotificationRuns

  /** A direct conversation is between two different users, and each of its messages is sent by one of them. */
  ghost predicate DirectsOfTwo(db: Snapshot) {
    && (forall c :: c in db.directs ==> db.directs[c].0 != db.directs[c].1)
    && (forall id :: id in db.messages && db.messages[id].channel in db.directs ==>
          db.messages[id].sender in Ends(db, db.messages[id].channel))
  }

  ghost function Ends(db: Snapshot, channel: string): set<string>
    requires channel in db.directs
  {
    {db.directs[channel].0, db.directs[channel].1}
  }

  // Preferences, all on until the user sets them

  ghost predicate WantsInstant(db: Snapshot, user: string) {
    user in db.preferences ==> db.preferences[user].instant
  }

  ghost predicate WantsMentions(db: Snapshot, user: string) {
    user in db.preferences ==> db.preferences[user].mentions
  }

  ghost predicate WantsDirects(db: Snapshot, user: string) {
    user in db.preferences ==> db.preferences[user].direct
  }

  /** The user wrote the root of the message's thread or an earlier reply in it. */
  ghost predicate WroteBefore(db: Snapshot, user: string, id: nat)
    requires id in db.messages
  {
    var m := db.messages[id];
    && m.parent.Some? && m.parent.value in db.messages
    && exists prior :: prior in db.messages && db.messages[prior].sender == user
         && (m.parent == Some(prior) || EarlierReply(db.messages[prior], m))
  }

  /** Why a message that is not their own notifies a user. */
  ghost predicate Concerns(db: Snapshot, user: string, id: nat, kind: Kind)
    requires id in db.messages
  {
    var m := db.messages[id];
    && user != m.sender
    && match kind
       case Mention => (id, user) in db.mentions
       case DirectMessage =>
         || (m.channel in db.directs && user in Ends(db, m.channel))
         || (m.channel in db.groups && (m.channel, user) in db.members && user in db.humans)
       case ThreadReply => (m.channel, user) in db.members && WroteBefore(db, user, id)
       case ChannelMessage => (m.channel, user) in db.members && (m.channel, user) in db.followers
  }

  /** The user wants this kind, and the message is past the cursors that go with it. */
  ghost predicate Due(db: Snapshot, sub: Subscription, id: nat, kind: Kind)
    requires id in db.messages
  {
    && WantsInstant(db, sub.user)
    && match kind
       case Mention => WantsMentions(db, sub.user) && sub.after < id
       case DirectMessage => WantsDirects(db, sub.user) && sub.after < id
       case ThreadReply => sub.threadAfter < id
       case ChannelMessage =>
         var follower := (db.messages[id].channel, sub.user);
         sub.after < id && (follower in db.followers ==> db.followers[follower] < id)
  }

  ghost predicate Notifies(db: Snapshot, k: Key, kind: Kind) {
    && k.subscription in db.subscriptions && k.message in db.messages
    && Concerns(db, db.subscriptions[k.subscription].user, k.message, kind)
    && Due(db, db.subscriptions[k.subscription], k.message, kind)
  }

  // One statement

  /** In a direct conversation of two, a subscription that is due has a row, in the bulk statement and in the
      one of the message itself, exactly when its user is the member who is not the sender. */
  lemma DirectGoesToOtherMember(db: Snapshot, post: Posted, k: Key)
    requires Stored(db, post) && post.message.channel in db.directs && k.message == post.id
    requires db.directs[post.message.channel].0 != db.directs[post.message.channel].1
    requires post.message.sender in Ends(db, post.message.channel)
    requires k.subscription in db.subscriptions && Due(db, db.subscriptions[k.subscription], post.id, DirectMessage)
    ensures var user := db.subscriptions[k.subscription].user;
      var other := user in Ends(db, post.message.channel) && user != post.message.sender;
      && (k in BulkRows(db, DirectRows) <==> other) && (k in PostRows(db, DirectRows, post) <==> other)
      && (other ==> BulkRows(db, DirectRows)[k] == Row(user, DirectMessage))
      && (other ==> PostRows(db, DirectRows, post)[k] == Row(user, DirectMessage))
  {
    hide BulkRows, PostRows;
    BulkRowAt(db, DirectRows, k);
    PostRowAt(db, DirectRows, post, k);
  }

  lemma MentionApplies(db: Snapshot, k: Key)
    ensures Applies(db, MentionRows, k) <==> Notifies(db, k, Mention)
  {
  }

  lemma DirectApplies(db: Snapshot, k: Key)
    requires DirectsOfTwo(db)
    ensures Applies(db, DirectRows, k) || Applies(db, GroupRows, k) <==> Notifies(db, k, DirectMessage)
  {
  }

  lemma ThreadApplies(db: Snapshot, k: Key)
    ensures Applies(db, ThreadRootRows, k) || Applies(db, ThreadParticipantRows, k) <==> Notifies(db, k, ThreadReply)
  {
  }

  lemma ChannelApplies(db: Snapshot, k: Key)
    ensures Applies(db, ChannelRows, k) <==> Notifies(db, k, ChannelMessage)
  {
  }

  /** Whatever a statement selects, it selects for the reason its rows name. */
  lemma RowHasReason(db: Snapshot, t: Statement, k: Key)
    requires DirectsOfTwo(db) && Applies(db, t, k)
    ensures Notifies(db, k, RowBy(db, t, k).value.kind)
    ensures RowBy(db, t, k).value.recipient == db.subscriptions[k.subscription].user
  {
    hide Applies, Notifies;
    MentionApplies(db, k);
    DirectApplies(db, k);
    ThreadApplies(db, k);
    ChannelApplies(db, k);
    AppliesToPair(db, t, k);
  }

  lemma AppliesToPair(db: Snapshot, t: Statement, k: Key)
    requires Applies(db, t, k)
    ensures k.subscription in db.subscriptions && k.message in db.messages
  {
    hide BulkSelects;
  }

  // All statements

  /** The row a pair is to have: for its user, with the first of the kinds that notify it. */
  ghost predicate FirstReason(db: Snapshot, k: Key, row: Option<Row>) {
    if Notifies(db, k, Mention) then row == Some(Row(db.subscriptions[k.subscription].user, Mention))
    else if Notifies(db, k, DirectMessage)
      then row == Some(Row(db.subscriptions[k.subscription].user, DirectMessage))
    else if Notifies(db, k, ThreadReply) then row == Some(Row(db.subscriptions[k.subscription].user, ThreadReply))
    else if Notifies(db, k, ChannelMessage)
      then row == Some(Row(db.subscriptions[k.subscription].user, ChannelMessage))
    else row == None
  }

  lemma OwedForFirstReason(db: Snapshot, k: Key)
    requires DirectsOfTwo(db)
    ensures FirstReason(db, k, Owed(db, k))
  {
    hide Applies, Concerns, Due;
    MentionApplies(db, k);
    DirectApplies(db, k);
    ThreadApplies(db, k);
    ChannelApplies(db, k);
  }

  lemma {:induction false} OwedByHasReason(db: Snapshot, k: Key, lo: nat, hi: nat)
    requires DirectsOfTwo(db) && hi <= STATEMENTS && OwedBy(db, k, lo, hi).Some?
    ensures Notifies(db, k, OwedBy(db, k, lo, hi).value.kind)
    ensures OwedBy(db, k, lo, hi).value.recipient == db.subscriptions[k.subscription].user
    decreases hi - lo
  {
    hide Applies, Notifies;
    if Applies(db, StatementAt(lo), k) { RowHasReason(db, StatementAt(lo), k); }
    else { OwedByHasReason(db, k, lo + 1, hi); }
  }

  // Every rollout

  /** At every moment of every rollout, a row of the outbox is for its subscription's own user, its kind is a
      reason to notify that user, and the message is not the user's own. */
  lemma RowsHaveReasons(
    db: Snapshot, posts: seq<Posted>, states: seq<Rollout>, events: seq<Event>, i: nat, k: Key)
    requires Posts(db, posts) && DirectsOfTwo(db) && IsRun(db, posts, states, events) && i < |states|
    requires k in states[i].outbox
    ensures Notifies(db, k, states[i].outbox[k].kind)
    ensures states[i].outbox[k].recipient == db.subscriptions[k.subscription].user
    ensures db.subscriptions[k.subscription].user != db.messages[k.message].sender
  {
    hide Posts, Next, IsRun, OwedBy, Due, DirectsOfTwo;
    RunInv(db, posts, states, events, i);
    var p :| 0 <= p < |states[i].marks| && OfPost(posts, p, k);
    var mark := states[i].marks[p];
    if mark.Enqueued? { OwedByHasReason(db, k, 0, STATEMENTS); }
    else { OwedByHasReason(db, k, mark.stage, states[i].stage); }
  }

  /** After the last statement a message that its transaction enqueued, or that was stored before the first
      statement, has a row for each subscription it notifies, of its first reason, and no other row. */
  lemma RolloutNotifies(
    db: Snapshot, posts: seq<Posted>, states: seq<Rollout>, events: seq<Event>, i: nat, p: nat, k: Key)
    requires Posts(db, posts) && DirectsOfTwo(db) && IsRun(db, posts, states, events) && i < |states|
    requires states[i].stage == 6 && p < |states[i].marks| && OfPost(posts, p, k)
    requires states[i].marks[p] == Enqueued || states[i].marks[p] == Late(0)
    ensures FirstReason(db, k, At(states[i].outbox, k))
  {
    hide Posts, Next, IsRun, OwedBy, Owed, FirstReason, DirectsOfTwo;
    RolloutGivesWhatIsOwed(db, posts, states, events, i, p, k);
    OwedForFirstReason(db, k);
  }

  /** A message of a direct conversation that was enqueued, or stored before the second statement, ends with a
      row for every due subscription of the other member. */
  lemma OtherMemberIsNotified(
    db: Snapshot, posts: seq<Posted>, states: seq<Rollout>, events: seq<Event>, i: nat, p: nat, k: Key)
    requires Posts(db, posts) && DirectsOfTwo(db) && IsRun(db, posts, states, events) && i < |states|
    requires states[i].stage == 6 && p < |states[i].marks| && OfPost(posts, p, k)
    requires states[i].marks[p].Enqueued? || states[i].marks[p].stage <= 1
    requires posts[p].message.channel in db.directs && k.subscription in db.subscriptions
    requires var user := db.subscriptions[k.subscription].user;
      && user in Ends(db, posts[p].message.channel) && user != posts[p].message.sender
      && Due(db, db.subscriptions[k.subscription], k.message, DirectMessage)
    ensures k in states[i].outbox && states[i].outbox[k].recipient == db.subscriptions[k.subscription].user
    ensures states[i].marks[p] == Late(1) || !Notifies(db, k, Mention) ==> states[i].outbox[k].kind == DirectMessage
    ensures states[i].marks[p] != Late(1) && Notifies(db, k, Mention) ==> states[i].outbox[k].kind == Mention
  {
    hide Next, IsRun, OwedBy, Owed, BulkSelects, Ids, InThreadOrder;
    assert Notifies(db, k, DirectMessage);
    if states[i].marks[p] == Late(1) {
      RolloutGivesWhatIsOwed(db, posts, states, events, i, p, k);
      DirectRowByDirectStatement(db, k);
    } else {
      RolloutNotifies(db, posts, states, events, i, p, k);
    }
  }

  lemma DirectRowByDirectStatement(db: Snapshot, k: Key)
    requires DirectsOfTwo(db) && Notifies(db, k, DirectMessage)
    ensures OwedBy(db, k, 1, STATEMENTS) == Some(Row(db.subscriptions[k.subscription].user, DirectMessage))
  {
    hide Applies, Notifies;
    DirectApplies(db, k);
    AppliesDirectly(db, k);
    if !Applies(db, DirectRows, k) {
      assert OwedBy(db, k, 1, STATEMENTS) == OwedBy(db, k, 2, STATEMENTS);
    }
  }

  lemma AppliesDirectly(db: Snapshot, k: Key)
    requires Notifies(db, k, DirectMessage)
    ensures k.subscription in db.subscriptions
  {
  }
}
