/** The web-push outbox: which messages notify which subscriptions, filled per message while the
    message is stored, and in bulk when a worker starts.

    Both writers are six insert statements that skip a (subscription, message) pair already present. */
module NotificationSpec {
  import opened Options

  /** Message identifiers are ordered, like the database's UUIDv7 values. */
  datatype Message = Message(channel: string, sender: string, parent: Option<nat>, sequence: nat)

  datatype Subscription = Subscription(user: string, after: nat, threadAfter: nat)

  datatype Preferences = Preferences(instant: bool, mentions: bool, direct: bool)

  datatype Snapshot = Snapshot(
    messages: map<nat, Message>,
    mentions: set<(nat, string)>,
    subscriptions: map<string, Subscription>,
    preferences: map<string, Preferences>,
    directs: map<string, (string, string)>,
    groups: set<string>,
    members: set<(string, string)>,
    humans: set<string>,
    followers: map<(string, string), nat>)

  datatype Kind = Mention | DirectMessage | ThreadReply | ChannelMessage

  datatype Key = Key(subscription: string, message: nat)

  datatype Row = Row(recipient: string, kind: Kind)

  type Outbox = map<Key, Row>

  /** The message value a writer holds while it stores the message. */
  datatype Posted = Posted(id: nat, message: Message)

  /** coalesce over the preferences row */
  function PreferencesOf(db: Snapshot, user: string): Preferences {
    if user in db.preferences then db.preferences[user] else Preferences(true, true, true)
  }

  function OtherEnd(pair: (string, string), sender: string): string {
    if pair.0 == sender then pair.1 else pair.0
  }

  // The row selections of the bulk statements (backfill)

  datatype Statement = MentionRows | DirectRows | GroupRows | ThreadRootRows | ThreadParticipantRows | ChannelRows

  function KindOf(t: Statement): Kind {
    match t
    case MentionRows => Mention
    case DirectRows => DirectMessage
    case GroupRows => DirectMessage
    case ThreadRootRows => ThreadReply
    case ThreadParticipantRows => ThreadReply
    case ChannelRows => ChannelMessage
  }

  predicate BulkSelects(db: Snapshot, t: Statement, sub: Subscription, id: nat)
    requires id in db.messages
  {
    var m, p := db.messages[id], PreferencesOf(db, sub.user);
    p.instant &&
    match t
    case MentionRows => (id, sub.user) in db.mentions && sub.user != m.sender && id > sub.after && p.mentions
    case DirectRows => m.channel in db.directs && sub.user == OtherEnd(db.directs[m.channel], m.sender)
      && id > sub.after && p.direct
    case GroupRows =>
      && m.channel in db.groups && (m.channel, sub.user) in db.members && sub.user in db.humans
      && sub.user != m.sender && id > sub.after && p.direct
    case ThreadRootRows =>
      && m.parent.Some? && m.parent.value in db.messages
      && sub.user == db.messages[m.parent.value].sender && (m.channel, sub.user) in db.members
      && sub.user != m.sender && id > sub.threadAfter
    case ThreadParticipantRows =>
      && m.parent.Some? && m.parent.value in db.messages
      && (exists prior :: prior in db.messages && db.messages[prior].parent == m.parent
            && db.messages[prior].sequence < m.sequence && db.messages[prior].sender == sub.user)
      && (m.channel, sub.user) in db.members && sub.user != m.sender && id > sub.threadAfter
    case ChannelRows =>
      && (m.channel, sub.user) in db.followers && (m.channel, sub.user) in db.members
      && sub.user != m.sender && id > sub.after && id > db.followers[(m.channel, sub.user)]
  }

  // The row selections of the per-message statements, which bind the message they were called with

  predicate PostSelects(db: Snapshot, t: Statement, sub: Subscription, post: Posted) {
    var p, id := PreferencesOf(db, sub.user), post.id;
    p.instant &&
    match t
    case MentionRows => (id, sub.user) in db.mentions && sub.user != post.message.sender && id > sub.after && p.mentions
    case DirectRows =>
      && post.message.channel in db.directs
      && sub.user == OtherEnd(db.directs[post.message.channel], post.message.sender)
      && id > sub.after && p.direct
    case GroupRows =>
      && post.message.channel in db.groups && (post.message.channel, sub.user) in db.members && sub.user in db.humans
      && sub.user != post.message.sender && id > sub.after && p.direct
    case ThreadRootRows =>
      && post.message.parent.Some? && id in db.messages
      && var reply := db.messages[id];
      && reply.parent.Some? && reply.parent.value in db.messages
      && sub.user == db.messages[reply.parent.value].sender && (reply.channel, sub.user) in db.members
      && sub.user != reply.sender && id > sub.threadAfter
    case ThreadParticipantRows =>
      && post.message.parent.Some? && id in db.messages
      && var reply := db.messages[id];
      && reply.parent.Some? && reply.parent.value in db.messages
      && (exists prior :: prior in db.messages && db.messages[prior].parent == reply.parent
            && db.messages[prior].sequence < reply.sequence && db.messages[prior].sender == sub.user)
      && (reply.channel, sub.user) in db.members && sub.user != reply.sender && id > sub.threadAfter
    case ChannelRows =>
      && (post.message.channel, sub.user) in db.followers && (post.message.channel, sub.user) in db.members
      && sub.user != post.message.sender && id > sub.after && id > db.followers[(post.message.channel, sub.user)]
  }

  function Pairs(db: Snapshot): set<Key> {
    set s, m | s in db.subscriptions && m in db.messages :: Key(s, m)
  }

  function BulkRows(db: Snapshot, t: Statement): Outbox {
    map k | k in Pairs(db) && k.subscription in db.subscriptions && k.message in db.messages
          && BulkSelects(db, t, db.subscriptions[k.subscription], k.message)
        :: Row(db.subscriptions[k.subscription].user, KindOf(t))
  }

  function PostKeys(db: Snapshot, post: Posted): set<Key> { set s | s in db.subscriptions :: Key(s, post.id) }

  function PostRows(db: Snapshot, t: Statement, post: Posted): Outbox {
    map k | k in PostKeys(db, post) && k.subscription in db.subscriptions
          && PostSelects(db, t, db.subscriptions[k.subscription], post)
        :: Row(db.subscriptions[k.subscription].user, KindOf(t))
  }

  /** insert … on conflict do nothing */
  function InsertAbsent(outbox: Outbox, rows: Outbox): Outbox { rows + outbox }

  /** backfill_current_cursors_once: one bulk statement after the other. */
  function Backfill(db: Snapshot, outbox: Outbox): Outbox {
    var o1 := InsertAbsent(outbox, BulkRows(db, MentionRows));
    var o2 := InsertAbsent(o1, BulkRows(db, DirectRows));
    var o3 := InsertAbsent(o2, BulkRows(db, GroupRows));
    var o4 := InsertAbsent(o3, BulkRows(db, ThreadRootRows));
    var o5 := InsertAbsent(o4, BulkRows(db, ThreadParticipantRows));
    InsertAbsent(o5, BulkRows(db, ChannelRows))
  }

  /** enqueue_message: the same order for one message. */
  function Enqueue(db: Snapshot, outbox: Outbox, post: Posted): Outbox {
    var o1 := InsertAbsent(outbox, PostRows(db, MentionRows, post));
    var o2 := InsertAbsent(o1, PostRows(db, DirectRows, post));
    var o3 := InsertAbsent(o2, PostRows(db, GroupRows, post));
    var o5 := if post.message.parent.None? then o3 else
                InsertAbsent(InsertAbsent(o3, PostRows(db, ThreadRootRows, post)),
                  PostRows(db, ThreadParticipantRows, post));
    InsertAbsent(o5, PostRows(db, ChannelRows, post))
  }

  // What a subscription is owed for a message: the first statement that selects it

  function Applies(db: Snapshot, t: Statement, k: Key): bool {
    k.subscription in db.subscriptions && k.message in db.messages
      && BulkSelects(db, t, db.subscriptions[k.subscription], k.message)
  }

  /** The row one statement has for a pair. */
  function RowBy(db: Snapshot, t: Statement, k: Key): Option<Row> {
    if Applies(db, t, k) then Some(Row(db.subscriptions[k.subscription].user, KindOf(t))) else None
  }

  function Owed(db: Snapshot, k: Key): Option<Row> {
    if Applies(db, MentionRows, k) then Some(Row(db.subscriptions[k.subscription].user, Mention))
    else if Applies(db, DirectRows, k) || Applies(db, GroupRows, k)
      then Some(Row(db.subscriptions[k.subscription].user, DirectMessage))
    else if Applies(db, ThreadRootRows, k) || Applies(db, ThreadParticipantRows, k)
      then Some(Row(db.subscriptions[k.subscription].user, ThreadReply))
    else if Applies(db, ChannelRows, k) then Some(Row(db.subscriptions[k.subscription].user, ChannelMessage))
    else None
  }

  /** Outbox o' is o with, for every pair that o lacks and whose message is in scope, the row owed, if any. */
  ghost predicate Filled(db: Snapshot, o: Outbox, o': Outbox, scope: set<nat>) {
    && (forall k :: k in o ==> k in o' && o'[k] == o[k])
    && (forall k :: k in o' && k !in o ==> k.message in scope && Owed(db, k) == Some(o'[k]))
    && (forall k: Key :: k.message in scope && Owed(db, k).Some? ==> k in o')
  }

  /** The filling of a scope is unique. */
  lemma FilledOnce(db: Snapshot, o: Outbox, a: Outbox, b: Outbox, scope: set<nat>)
    requires Filled(db, o, a, scope) && Filled(db, o, b, scope)
    ensures a == b
  {
    hide Owed;
    forall k ensures k in a <==> k in b {}
    forall k | k in a ensures a[k] == b[k] {}
  }

  lemma BulkRowAt(db: Snapshot, t: Statement, k: Key)
    ensures k in BulkRows(db, t) <==> Applies(db, t, k)
    ensures k in BulkRows(db, t) ==> BulkRows(db, t)[k] == Row(db.subscriptions[k.subscription].user, KindOf(t))
  {
    hide BulkSelects;
    if k.subscription in db.subscriptions && k.message in db.messages { assert k in Pairs(db); }
  }

  lemma AppliesToStored(db: Snapshot, k: Key)
    ensures forall t :: Applies(db, t, k) ==> k.message in db.messages
  {
    hide BulkSelects;
  }

  ghost predicate Stored(db: Snapshot, post: Posted) {
    post.id in db.messages && db.messages[post.id] == post.message
  }

  /** On a stored message both writers select the same subscriptions. */
  lemma SameSelection(db: Snapshot, t: Statement, sub: Subscription, post: Posted)
    requires Stored(db, post)
    ensures PostSelects(db, t, sub, post) <==> BulkSelects(db, t, sub, post.id)
  {
  }

  lemma PostRowAt(db: Snapshot, t: Statement, post: Posted, k: Key)
    requires Stored(db, post)
    ensures k in PostRows(db, t, post) <==> k.message == post.id && Applies(db, t, k)
    ensures k in PostRows(db, t, post) ==>
      PostRows(db, t, post)[k] == Row(db.subscriptions[k.subscription].user, KindOf(t))
  {
    hide PostSelects, BulkSelects;
    if k.subscription in db.subscriptions { SameSelection(db, t, db.subscriptions[k.subscription], post); }
    assert k.message == post.id ==> k == Key(k.subscription, post.id);
  }

  /** The thread statements select nothing for a message outside any thread. */
  lemma NoThreadRows(db: Snapshot, post: Posted, k: Key)
    requires Stored(db, post) && post.message.parent.None? && k.message == post.id
    ensures !Applies(db, ThreadRootRows, k) && !Applies(db, ThreadParticipantRows, k)
  {
  }

  /** Backfill fills in exactly what every pair is owed. */
  lemma BackfillFills(db: Snapshot, outbox: Outbox)
    ensures Filled(db, outbox, Backfill(db, outbox), db.messages.Keys)
  {
    hide BulkRows, Applies;
    var o' := Backfill(db, outbox);
    forall k: Key
      ensures k in outbox ==> k in o' && o'[k] == outbox[k]
      ensures k in o' && k !in outbox ==> k.message in db.messages && Owed(db, k) == Some(o'[k])
      ensures Owed(db, k).Some? ==> k in o'
    {
      BulkRowAt(db, MentionRows, k);
      BulkRowAt(db, DirectRows, k);
      BulkRowAt(db, GroupRows, k);
      BulkRowAt(db, ThreadRootRows, k);
      BulkRowAt(db, ThreadParticipantRows, k);
      BulkRowAt(db, ChannelRows, k);
      AppliesToStored(db, k);
    }
  }

  lemma EnqueueFills(db: Snapshot, outbox: Outbox, post: Posted)
    requires Stored(db, post)
    ensures Filled(db, outbox, Enqueue(db, outbox, post), {post.id})
  {
    hide PostRows, Applies;
    var o' := Enqueue(db, outbox, post);
    forall k: Key
      ensures k in outbox ==> k in o' && o'[k] == outbox[k]
      ensures k in o' && k !in outbox ==> k.message == post.id && Owed(db, k) == Some(o'[k])
      ensures k.message == post.id && Owed(db, k).Some? ==> k in o'
    {
      PostRowAt(db, MentionRows, post, k);
      PostRowAt(db, DirectRows, post, k);
      PostRowAt(db, GroupRows, post, k);
      PostRowAt(db, ThreadRootRows, post, k);
      PostRowAt(db, ThreadParticipantRows, post, k);
      PostRowAt(db, ChannelRows, post, k);
      if post.message.parent.None? && k.message == post.id { NoThreadRows(db, post, k); }
    }
  }

  // The two writers agree

  /** One enqueue after the other, under one snapshot. */
  function EnqueueAll(db: Snapshot, outbox: Outbox, posts: seq<Posted>): Outbox {
    if posts == [] then outbox else Enqueue(db, EnqueueAll(db, outbox, posts[..|posts| - 1]), posts[|posts| - 1])
  }

  function Ids(posts: seq<Posted>): set<nat> { set i | 0 <= i < |posts| :: posts[i].id }

  lemma FilledThen(db: Snapshot, o: Outbox, a: Outbox, b: Outbox, first: set<nat>, second: set<nat>)
    requires Filled(db, o, a, first) && Filled(db, a, b, second)
    ensures Filled(db, o, b, first + second)
  {
    hide Owed;
  }

  lemma {:induction false} EnqueueAllFills(db: Snapshot, outbox: Outbox, posts: seq<Posted>)
    requires forall i :: 0 <= i < |posts| ==> Stored(db, posts[i])
    ensures Filled(db, outbox, EnqueueAll(db, outbox, posts), Ids(posts))
  {
    hide Filled, Enqueue;
    if posts == [] {
      assert Ids(posts) == {};
      NothingToFill(db, outbox);
    }
    else {
      var n := |posts| - 1;
      EnqueueAllFills(db, outbox, posts[..n]);
      EnqueueFills(db, EnqueueAll(db, outbox, posts[..n]), posts[n]);
      FilledThen(db, outbox, EnqueueAll(db, outbox, posts[..n]), EnqueueAll(db, outbox, posts), Ids(posts[..n]),
        {posts[n].id});
      assert Ids(posts[..n]) + {posts[n].id} == Ids(posts);
    }
  }

  lemma NothingToFill(db: Snapshot, outbox: Outbox)
    ensures Filled(db, outbox, outbox, {})
  {
    hide Owed;
  }

  /** The bulk backfill equals the per-message enqueue of all messages, in any order and with any repetitions,
      from any outbox. */
  lemma BackfillIsEnqueueInAnyOrder(db: Snapshot, outbox: Outbox, posts: seq<Posted>)
    requires forall i :: 0 <= i < |posts| ==> Stored(db, posts[i])
    requires Ids(posts) == db.messages.Keys
    ensures EnqueueAll(db, outbox, posts) == Backfill(db, outbox)
  {
    hide Filled, Enqueue, EnqueueAll, Backfill;
    EnqueueAllFills(db, outbox, posts);
    BackfillFills(db, outbox);
    FilledOnce(db, outbox, EnqueueAll(db, outbox, posts), Backfill(db, outbox), db.messages.Keys);
  }

  /** From an empty outbox every pair gets exactly its highest-priority applicable kind. */
  lemma BackfillGivesHighestPriority(db: Snapshot, k: Key)
    ensures k in Backfill(db, map[]) <==> Owed(db, k).Some?
    ensures k in Backfill(db, map[]) ==> Owed(db, k) == Some(Backfill(db, map[])[k])
  {
    hide Backfill, BulkSelects;
    BackfillFills(db, map[]);
    AppliesToStored(db, k);
  }

  /** A start-up backfill after any enqueues, and a repetition of either writer, add nothing beyond one backfill. */
  lemma BackfillBridges(db: Snapshot, outbox: Outbox, posts: seq<Posted>)
    requires forall i :: 0 <= i < |posts| ==> Stored(db, posts[i])
    ensures Backfill(db, EnqueueAll(db, outbox, posts)) == Backfill(db, outbox)
    ensures EnqueueAll(db, Backfill(db, outbox), posts) == Backfill(db, outbox)
    ensures Backfill(db, Backfill(db, outbox)) == Backfill(db, outbox)
  {
    hide Filled, Enqueue, EnqueueAll, Backfill;
    var all, e, b := db.messages.Keys, EnqueueAll(db, outbox, posts), Backfill(db, outbox);
    assert Ids(posts) + all == all && all + Ids(posts) == all && all + all == all;
    BackfillFills(db, outbox);
    EnqueueAllFills(db, outbox, posts);
    BackfillFills(db, e);
    FilledThen(db, outbox, e, Backfill(db, e), Ids(posts), all);
    FilledOnce(db, outbox, Backfill(db, e), b, all);
    EnqueueAllFills(db, b, posts);
    FilledThen(db, outbox, b, EnqueueAll(db, b, posts), all, Ids(posts));
    FilledOnce(db, outbox, EnqueueAll(db, b, posts), b, all);
    BackfillFills(db, b);
    FilledThen(db, outbox, b, Backfill(db, b), all, all);
    FilledOnce(db, outbox, Backfill(db, b), b, all);
  }

  // Messages stored one by one

  /** The snapshot when posts[..n] are stored. */
  function Early(db: Snapshot, posts: seq<Posted>, n: nat): Snapshot
    requires n <= |posts|
  {
    db.(messages := map id | id in db.messages && id in Ids(posts[..n]) :: db.messages[id])
  }

  /** Each message is enqueued in the transaction that stores it. */
  function EnqueueAsStored(db: Snapshot, outbox: Outbox, posts: seq<Posted>, n: nat): Outbox
    requires n <= |posts|
  {
    if n == 0 then outbox else Enqueue(Early(db, posts, n), EnqueueAsStored(db, outbox, posts, n - 1), posts[n - 1])
  }

  predicate EarlierReply(a: Message, b: Message) {
    a.parent.Some? && a.parent == b.parent && a.sequence < b.sequence
  }

  /** A thread's root is stored before its replies, and replies of one thread are stored in sequence order. */
  ghost predicate InThreadOrder(posts: seq<Posted>) {
    && (forall i, j :: 0 <= i < |posts| && 0 <= j < |posts| && posts[i].id == posts[j].id ==> i == j)
    && (forall i, j :: 0 <= i < |posts| && 0 <= j < |posts| && posts[j].message.parent == Some(posts[i].id) ==> i < j)
    && (forall i, j :: 0 <= i < |posts| && 0 <= j < |posts| && EarlierReply(posts[i].message, posts[j].message) ==>
          i < j)
  }

  /** A stored message is selected as at the end, however many messages are stored after it. */
  lemma AppliesAsAtEnd(db: Snapshot, posts: seq<Posted>, n: nat, i: nat, k: Key, t: Statement)
    requires i < n <= |posts| && InThreadOrder(posts) && Ids(posts) == db.messages.Keys
    requires forall i :: 0 <= i < |posts| ==> Stored(db, posts[i])
    requires k.message == posts[i].id
    ensures Applies(Early(db, posts, n), t, k) == Applies(db, t, k)
  {
    hide Early, Ids, InThreadOrder;
    var early := Early(db, posts, n);
    StoredEarly(db, posts, n, i);
    EarlyIsPart(db, posts, n);
    forall id | id in db.messages
      && (posts[i].message.parent == Some(id) || EarlierReply(db.messages[id], posts[i].message))
      ensures id in early.messages
    {
      ThreadIsStored(db, posts, n, i, id);
    }
    SelectedAlike(db, early, k, t);
  }

  lemma EarlyIsPart(db: Snapshot, posts: seq<Posted>, n: nat)
    requires n <= |posts|
    ensures var early := Early(db, posts, n);
      early == db.(messages := early.messages) && forall id :: id in early.messages ==>
        id in db.messages && early.messages[id] == db.messages[id]
  {
  }

  /** The root and the earlier replies of a stored message are stored. */
  lemma ThreadIsStored(db: Snapshot, posts: seq<Posted>, n: nat, i: nat, id: nat)
    requires i < n <= |posts| && InThreadOrder(posts) && Ids(posts) == db.messages.Keys
    requires forall i :: 0 <= i < |posts| ==> Stored(db, posts[i])
    requires id in db.messages
    requires posts[i].message.parent == Some(id) || EarlierReply(db.messages[id], posts[i].message)
    ensures id in Early(db, posts, n).messages
  {
    hide Early;
    var j :| 0 <= j < |posts| && posts[j].id == id;
    StoredEarly(db, posts, n, j);
  }

  /** A selection depends only on the message, its root and its earlier replies. */
  lemma SelectedAlike(db: Snapshot, early: Snapshot, k: Key, t: Statement)
    requires early == db.(messages := early.messages)
    requires forall id :: id in early.messages ==> id in db.messages && early.messages[id] == db.messages[id]
    requires k.message in early.messages
    requires var m := early.messages[k.message];
      forall id :: id in db.messages && (m.parent == Some(id) || EarlierReply(db.messages[id], m)) ==>
        id in early.messages
    ensures Applies(early, t, k) == Applies(db, t, k)
  {
  }

  lemma StoredEarly(db: Snapshot, posts: seq<Posted>, n: nat, i: nat)
    requires n <= |posts| && i < |posts| && InThreadOrder(posts) && Ids(posts) == db.messages.Keys
    ensures posts[i].id in Early(db, posts, n).messages <==> i < n
  {
    if i < n { assert posts[i].id == posts[..n][i].id; }
    assert posts[i].id in Ids(posts);
  }

  lemma OwedSame(db: Snapshot, posts: seq<Posted>, n: nat, k: Key)
    requires 0 < n <= |posts| && InThreadOrder(posts) && Ids(posts) == db.messages.Keys
    requires forall i :: 0 <= i < |posts| ==> Stored(db, posts[i])
    requires k.message == posts[n - 1].id
    ensures Owed(Early(db, posts, n), k) == Owed(db, k)
  {
    hide Applies, InThreadOrder, Ids;
    AppliesAsAtEnd(db, posts, n, n - 1, k, MentionRows);
    AppliesAsAtEnd(db, posts, n, n - 1, k, DirectRows);
    AppliesAsAtEnd(db, posts, n, n - 1, k, GroupRows);
    AppliesAsAtEnd(db, posts, n, n - 1, k, ThreadRootRows);
    AppliesAsAtEnd(db, posts, n, n - 1, k, ThreadParticipantRows);
    AppliesAsAtEnd(db, posts, n, n - 1, k, ChannelRows);
  }

  lemma {:induction false} EnqueueAsStoredFills(db: Snapshot, outbox: Outbox, posts: seq<Posted>, n: nat)
    requires n <= |posts| && InThreadOrder(posts) && Ids(posts) == db.messages.Keys
    requires forall i :: 0 <= i < |posts| ==> Stored(db, posts[i])
    ensures Filled(db, outbox, EnqueueAsStored(db, outbox, posts, n), Ids(posts[..n]))
  {
    hide Filled, Enqueue, InThreadOrder;
    if n == 0 {
      assert Ids(posts[..0]) == {};
      NothingToFill(db, outbox);
    } else {
      var before, post := EnqueueAsStored(db, outbox, posts, n - 1), posts[n - 1];
      EnqueueAsStoredFills(db, outbox, posts, n - 1);
      StoredEarly(db, posts, n, n - 1);
      EnqueueFills(Early(db, posts, n), before, post);
      forall k: Key | k.message == post.id ensures Owed(Early(db, posts, n), k) == Owed(db, k) {
        OwedSame(db, posts, n, k);
      }
      SameDebts(Early(db, posts, n), db, before, Enqueue(Early(db, posts, n), before, post), {post.id});
      FilledThen(db, outbox, before, EnqueueAsStored(db, outbox, posts, n), Ids(posts[..n - 1]), {post.id});
      assert Ids(posts[..n]) == Ids(posts[..n - 1]) + {post.id};
    }
  }

  lemma SameDebts(a: Snapshot, b: Snapshot, o: Outbox, o': Outbox, scope: set<nat>)
    requires Filled(a, o, o', scope) && forall k: Key :: k.message in scope ==> Owed(a, k) == Owed(b, k)
    ensures Filled(b, o, o', scope)
  {
    hide Owed;
  }

  /** Messages enqueued one by one as they are stored leave the same outbox as one backfill over the final tables. */
  lemma BackfillIsEnqueueAsStored(db: Snapshot, outbox: Outbox, posts: seq<Posted>)
    requires InThreadOrder(posts) && Ids(posts) == db.messages.Keys
    requires forall i :: 0 <= i < |posts| ==> Stored(db, posts[i])
    ensures EnqueueAsStored(db, outbox, posts, |posts|) == Backfill(db, outbox)
  {
    hide Filled, EnqueueAsStored, Backfill, InThreadOrder;
    EnqueueAsStoredFills(db, outbox, posts, |posts|);
    assert posts[..|posts|] == posts;
    BackfillFills(db, outbox);
    FilledOnce(db, outbox, EnqueueAsStored(db, outbox, posts, |posts|), Backfill(db, outbox), db.messages.Keys);
  }
}
