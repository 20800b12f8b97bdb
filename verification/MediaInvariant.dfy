/** What every transaction of the media store keeps. */
module MediaInvariant {
  import opened Options
  import opened MediaSpec

  // Uploads and their chunks

  /** The bytes of the first n chunks. */
  ghost function Content(db: Db, id: string, n: nat): Bytes {
    if n == 0 then [] else
    Content(db, id, n - 1) + if ChunkKey(id, n - 1) in db.chunks then db.chunks[ChunkKey(id, n - 1)] else []
  }

  ghost predicate UploadOk(db: Db, id: string)
    requires id in db.uploads
  {
    var row := db.uploads[id];
    && row.size >= 1
    && row.received == Min(row.size, row.nextChunk * CHUNK)
    && (forall i :: 0 <= i ==> (ChunkKey(id, i) in db.chunks <==> i < row.nextChunk))
    && (forall i :: 0 <= i < row.nextChunk ==>
          i * CHUNK < row.size && |db.chunks[ChunkKey(id, i)]| == Min(CHUNK, row.size - i * CHUNK))
    && (row.state != Open ==> row.received == row.size)
    && (row.state == Complete <==> row.media.Some?)
    && (row.media.Some? ==> row.media.value in db.objects && db.objects[row.media.value].upload == id)
  }

  /** A stored object is the finished upload it came from: same owner, size and bytes. */
  ghost predicate ObjectOk(db: Db, media: string)
    requires media in db.objects
  {
    var object' := db.objects[media];
    && object'.upload in db.uploads
    && var row := db.uploads[object'.upload];
    && row.media == Some(media) && row.owner == object'.owner && row.channel == object'.channel
    && row.size == object'.size
    && object'.sha == Sha256(Content(db, object'.upload, row.nextChunk))
    && object'.size == |Content(db, object'.upload, row.nextChunk)|
  }

  ghost predicate StoreOk(db: Db) {
    && (forall id :: id in db.uploads ==> UploadOk(db, id))
    && (forall k :: k in db.chunks ==> k.upload in db.uploads)
    && (forall m :: m in db.objects ==> ObjectOk(db, m))
  }

  /** Later than db, an upload is gone or further along; sealed bytes and stored objects never change. */
  ghost predicate UploadLater(db: Db, db': Db, id: string)
    requires id in db.uploads && id in db'.uploads
  {
    var row, row' := db.uploads[id], db'.uploads[id];
    && row' == row.(nextChunk := row'.nextChunk, received := row'.received, state := row'.state, media := row'.media)
    && row.nextChunk <= row'.nextChunk
    && (row.state != Open ==> row'.state != Open && row'.nextChunk == row.nextChunk)
    && (row.state == Complete ==> row' == row)
    && (forall i :: 0 <= i < row.nextChunk && ChunkKey(id, i) in db.chunks ==>
          ChunkKey(id, i) in db'.chunks && db'.chunks[ChunkKey(id, i)] == db.chunks[ChunkKey(id, i)])
  }

  ghost predicate Later(db: Db, db': Db) {
    && (forall id :: id in db.uploads && id in db'.uploads ==> UploadLater(db, db', id))
    && (forall id :: id in db.uploads && id !in db'.uploads ==> db.uploads[id].state != Complete)
    && (forall m :: m in db.objects ==> m in db'.objects && db'.objects[m] == db.objects[m])
  }

  lemma {:induction false} SameContent(db: Db, db': Db, id: string, n: nat)
    requires forall i :: 0 <= i < n ==>
      ChunkKey(id, i) in db.chunks && ChunkKey(id, i) in db'.chunks
        && db'.chunks[ChunkKey(id, i)] == db.chunks[ChunkKey(id, i)]
    ensures Content(db', id, n) == Content(db, id, n)
  {
    if n > 0 { SameContent(db, db', id, n - 1); }
  }

  lemma {:induction false} ContentLength(db: Db, id: string, n: nat)
    requires id in db.uploads && UploadOk(db, id) && n <= db.uploads[id].nextChunk
    ensures |Content(db, id, n)| == Min(db.uploads[id].size, n * CHUNK)
  {
    if n > 0 {
      ContentLength(db, id, n - 1);
      assert (n - 1) * CHUNK < db.uploads[id].size;
    }
  }

  /** db' differs from db only in upload id, which is not finished in db, its chunks, and objects made from it. */
  ghost predicate OnlyUpload(db: Db, db': Db, id: string) {
    && (id in db.uploads ==> db.uploads[id].state != Complete)
    && (forall u :: u != id ==>
          (u in db'.uploads <==> u in db.uploads) && (u in db.uploads ==> db'.uploads[u] == db.uploads[u]))
    && (forall k: ChunkKey :: k.upload != id ==>
          (k in db'.chunks <==> k in db.chunks) && (k in db.chunks ==> db'.chunks[k] == db.chunks[k]))
    && (forall k :: k in db'.chunks && k.upload == id ==> id in db'.uploads)
    && (forall m :: m in db.objects ==> m in db'.objects && db'.objects[m] == db.objects[m])
  }

  lemma OtherUploadKept(db: Db, db': Db, id: string, u: string)
    requires OnlyUpload(db, db', id) && u != id && u in db.uploads && UploadOk(db, u)
    ensures UploadOk(db', u) && UploadLater(db, db', u)
  {
    assert forall i: nat :: ChunkKey(u, i) in db'.chunks <==> ChunkKey(u, i) in db.chunks;
  }

  lemma OldObjectKept(db: Db, db': Db, id: string, m: string)
    requires OnlyUpload(db, db', id) && StoreOk(db) && m in db.objects
    ensures ObjectOk(db', m)
  {
    var u := db.objects[m].upload;
    assert ObjectOk(db, m) && UploadOk(db, u);
    SameContent(db, db', u, db.uploads[u].nextChunk);
  }

  lemma OneUploadChanged(db: Db, db': Db, id: string)
    requires StoreOk(db) && OnlyUpload(db, db', id)
    requires id in db'.uploads ==> UploadOk(db', id)
    requires id in db.uploads && id in db'.uploads ==> UploadLater(db, db', id)
    requires forall m :: m in db'.objects && m !in db.objects ==> ObjectOk(db', m)
    ensures StoreOk(db') && Later(db, db')
  {
    hide UploadOk, ObjectOk, UploadLater;
    forall u | u in db.uploads && u != id ensures u in db'.uploads && UploadOk(db', u) && UploadLater(db, db', u) {
      OtherUploadKept(db, db', id, u);
    }
    forall m | m in db.objects ensures ObjectOk(db', m) { OldObjectKept(db, db', id, m); }
  }

  lemma CreateKeeps(db: Db, cfg: Config, now: nat, actor: string, channel: string, input: NewUpload, id: string)
    requires StoreOk(db) && id !in db.uploads
    ensures var db' := CreateTx(db, cfg, now, actor, channel, input, id).0;
            StoreOk(db') && Later(db, db')
  {
    hide WithinBudget, ReadUpload, Accepted, StoreOk, Later;
    var db' := CreateTx(db, cfg, now, actor, channel, input, id).0;
    if db' != db {
      CreateExtends(db, db', id);
      OneUploadChanged(db, db', id);
    } else { LaterSelf(db); }
  }

  lemma CreateExtends(db: Db, db': Db, id: string)
    requires StoreOk(db) && id !in db.uploads && id in db'.uploads
      && db' == db.(uploads := db.uploads[id := db'.uploads[id]])
    requires var row := db'.uploads[id];
      row.size >= 1 && row.received == 0 && row.nextChunk == 0 && row.state == Open && row.media.None?
    ensures UploadOk(db', id) && OnlyUpload(db, db', id)
  {
  }

  lemma PutKeeps(db: Db, cfg: Config, now: nat, actor: string, id: string, index: nat, bytes: Bytes, claimed: Sha256)
    requires StoreOk(db)
    ensures var db' := PutTx(db, cfg, now, actor, id, index, bytes, claimed).0;
            StoreOk(db') && Later(db, db')
  {
    hide StoreOk, Later, UploadOk, UploadLater, OnlyUpload;
    var db' := PutTx(db, cfg, now, actor, id, index, bytes, claimed).0;
    if db' != db {
      StoredUploadOk(db, id);
      PutExtends(db, db', id, index, bytes);
      OneUploadChanged(db, db', id);
    } else { LaterSelf(db); }
  }

  lemma StoredUploadOk(db: Db, id: string)
    requires StoreOk(db) && id in db.uploads
    ensures UploadOk(db, id)
  {
  }

  lemma LaterSelf(db: Db)
    ensures Later(db, db)
  {
  }

  lemma PutExtends(db: Db, db': Db, id: string, index: nat, bytes: Bytes)
    requires id in db.uploads && UploadOk(db, id)
    requires var row := db.uploads[id];
      && row.state == Open && index == row.nextChunk && index * CHUNK < row.size
      && |bytes| == Min(row.size - index * CHUNK, CHUNK)
      && db' == db.(uploads := db.uploads[id := row.(nextChunk := row.nextChunk + 1,
        received := row.received + |bytes|)],
                    chunks := db.chunks[ChunkKey(id, index) := bytes])
    ensures UploadOk(db', id) && UploadLater(db, db', id) && OnlyUpload(db, db', id)
  {
    assert (index + 1) * CHUNK == index * CHUNK + CHUNK;
  }

  lemma SealKeeps(db: Db, cfg: Config, now: nat, actor: string, id: string)
    requires StoreOk(db)
    ensures var db' := SealTx(db, cfg, now, actor, id).0;
            StoreOk(db') && Later(db, db')
  {
    hide StoreOk, Later, UploadOk;
    var db' := SealTx(db, cfg, now, actor, id).0;
    if db' != db {
      StoredUploadOk(db, id);
      SealExtends(db, db', id);
      OneUploadChanged(db, db', id);
    } else { LaterSelf(db); }
  }

  lemma SealExtends(db: Db, db': Db, id: string)
    requires id in db.uploads && UploadOk(db, id) && db.uploads[id].state == Open
      && db.uploads[id].received == db.uploads[id].size
    requires db' == db.(uploads := db.uploads[id := db.uploads[id].(state := Sealed)])
    ensures UploadOk(db', id) && UploadLater(db, db', id) && OnlyUpload(db, db', id)
  {
  }

  /** A waiting completion has read exactly the first index chunks of an upload that can no longer change. */
  ghost predicate CallOk(db: Db, call: Completion) {
    && call.status.received == call.status.size
    && call.status.received == Min(call.status.size, call.status.nextChunk * CHUNK)
    && call.index <= call.status.nextChunk
    && |call.content| == Min(call.status.size, call.index * CHUNK)
    && (call.upload in db.uploads ==>
          && db.uploads[call.upload].state != Open
          && db.uploads[call.upload].size == call.status.size
          && db.uploads[call.upload].nextChunk == call.status.nextChunk
          && call.content == Content(db, call.upload, call.index))
  }

  lemma FinishKeeps(db: Db, cfg: Config, now: nat, call: Completion, detected: Option<string>, media: string)
    requires StoreOk(db) && CallOk(db, call) && call.index == call.status.nextChunk && media !in db.objects
    ensures var db' := FinishCompleteTx(db, cfg, now, call, detected, media).0;
            StoreOk(db') && Later(db, db')
  {
    hide StoreOk, Later, TriggerAdmits, Content, UploadOk;
    var db' := FinishCompleteTx(db, cfg, now, call, detected, media).0;
    if db' != db {
      StoredUploadOk(db, call.upload);
      FinishExtends(db, db', call, detected.value, media);
      OneUploadChanged(db, db', call.upload);
    } else { LaterSelf(db); }
  }

  lemma FinishExtends(db: Db, db': Db, call: Completion, kind: string, media: string)
    requires CallOk(db, call) && call.index == call.status.nextChunk && media !in db.objects
    requires call.upload in db.uploads && UploadOk(db, call.upload)
    requires var row := db.uploads[call.upload];
      && row.owner == call.actor && row.state == Sealed && row.media.None?
      && db' == db.(
           objects := db.objects[media := Media(call.actor, row.channel, call.upload, row.filename, kind, row.size,
             Sha256(call.content))],
           uploads := db.uploads[call.upload := row.(state := Complete, media := Some(media))])
    ensures UploadOk(db', call.upload) && UploadLater(db, db', call.upload) && OnlyUpload(db, db', call.upload)
      && ObjectOk(db', media)
  {
    SameContent(db, db', call.upload, call.index);
  }

  lemma WithoutKeeps(db: Db, gone: set<string>)
    requires StoreOk(db) && forall id :: id in gone && id in db.uploads ==> db.uploads[id].state != Complete
    ensures var db' := Without(db, gone); StoreOk(db') && Later(db, db')
  {
    hide UploadOk, ObjectOk, UploadLater;
    var db' := Without(db, gone);
    forall u | u in db'.uploads ensures UploadOk(db', u) && UploadLater(db, db', u) { UploadRemains(db, gone, u); }
    forall m | m in db'.objects ensures ObjectOk(db', m) {
      assert ObjectOk(db, m);
      ObjectRemains(db, gone, m);
    }
  }

  lemma UploadRemains(db: Db, gone: set<string>, u: string)
    requires u in db.uploads && u !in gone && UploadOk(db, u)
    ensures UploadOk(Without(db, gone), u) && UploadLater(db, Without(db, gone), u)
  {
  }

  lemma ObjectRemains(db: Db, gone: set<string>, m: string)
    requires StoreOk(db) && m in db.objects && ObjectOk(db, m)
    requires forall id :: id in gone && id in db.uploads ==> db.uploads[id].state != Complete
    ensures ObjectOk(Without(db, gone), m)
  {
    hide StoreOk, Content;
    var upload := db.objects[m].upload;
    StoredUploadOk(db, upload);
    SameContent(db, Without(db, gone), upload, db.uploads[upload].nextChunk);
  }

  // Completions in flight

  lemma CallLater(db: Db, db': Db, call: Completion)
    requires StoreOk(db) && Later(db, db') && CallOk(db, call)
    requires call.upload in db'.uploads ==> call.upload in db.uploads
    ensures CallOk(db', call)
  {
    if call.upload in db'.uploads {
      assert UploadOk(db, call.upload) && UploadLater(db, db', call.upload);
      SameContent(db, db', call.upload, call.index);
    }
  }

  lemma BeginCallOk(db: Db, cfg: Config, now: nat, actor: string, id: string)
    requires StoreOk(db)
    ensures var (db', reply) := BeginCompleteTx(db, cfg, now, actor, id);
            reply.Reading? ==> CallOk(db', reply.call)
  {
    if id in db.uploads { assert UploadOk(db, id); }
  }

  lemma ReadCallOk(db: Db, now: nat, call: Completion)
    requires StoreOk(db) && CallOk(db, call)
    ensures var reply := ReadStep(db, now, call);
            reply.Reading? ==> CallOk(db, reply.call)
  {
    hide StoreOk;
    if ReadSealed(db, now, call.actor, call.upload, call.index).Some? {
      StoredUploadOk(db, call.upload);
      ContentLength(db, call.upload, call.index + 1);
    }
  }
}
