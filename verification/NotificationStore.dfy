/** The outbox table, filled in place by the two writers. */
module NotificationStore {
  import opened Options
  import opened NotificationSpec

  class Outboxes {
    var outbox: Outbox

    constructor ()
      ensures outbox == map[]
    {
      outbox := map[];
    }

    /** One insert statement: existing rows win. */
    method Insert(rows: Outbox)
      modifies this
      ensures outbox == InsertAbsent(old(outbox), rows)
    {
      var rest := rows.Keys;
      while rest != {}
        invariant rest <= rows.Keys
        invariant forall k :: k in old(outbox) ==> k in outbox && outbox[k] == old(outbox)[k]
        invariant forall k :: k in outbox && k !in old(outbox) ==> k in rows && k !in rest && outbox[k] == rows[k]
        invariant forall k :: k in rows && k !in rest ==> k in outbox
        decreases rest
      {
        var k :| k in rest;
        if k !in outbox { outbox := outbox[k := rows[k]]; }
        rest := rest - {k};
      }
    }

    method EnqueueMessage(db: Snapshot, post: Posted)
      modifies this
      ensures outbox == Enqueue(db, old(outbox), post)
    {
      Insert(PostRows(db, MentionRows, post));
      Insert(PostRows(db, DirectRows, post));
      Insert(PostRows(db, GroupRows, post));
      if post.message.parent.Some? {
        Insert(PostRows(db, ThreadRootRows, post));
        Insert(PostRows(db, ThreadParticipantRows, post));
      }
      Insert(PostRows(db, ChannelRows, post));
    }

    /** One statement of the backfill, which commits on its own over the tables of that moment. */
    method BackfillStatement(db: Snapshot, t: Statement)
      modifies this
      ensures forall k :: k in old(outbox) ==> k in outbox && outbox[k] == old(outbox)[k]
      ensures forall k :: k !in old(outbox) ==> (k in outbox <==> RowBy(db, t, k).Some?)
      ensures forall k :: k in outbox && k !in old(outbox) ==> RowBy(db, t, k) == Some(outbox[k])
    {
      Insert(BulkRows(db, t));
      forall k: Key ensures k in BulkRows(db, t) <==> RowBy(db, t, k).Some?
        ensures k in BulkRows(db, t) ==> RowBy(db, t, k) == Some(BulkRows(db, t)[k])
      {
        BulkRowAt(db, t, k);
      }
    }

    /** The six statements without anything in between. */
    method BackfillCurrentCursors(db: Snapshot)
      modifies this
      ensures outbox == Backfill(db, old(outbox))
    {
      Insert(BulkRows(db, MentionRows));
      Insert(BulkRows(db, DirectRows));
      Insert(BulkRows(db, GroupRows));
      Insert(BulkRows(db, ThreadRootRows));
      Insert(BulkRows(db, ThreadParticipantRows));
      Insert(BulkRows(db, ChannelRows));
    }
  }
}
