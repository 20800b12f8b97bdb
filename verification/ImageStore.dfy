/** The image job table and its worker lease, changed in place. */
module ImageStore {
  import opened Options
  import opened ImageJobs

  datatype Enqueued = Stored(job: Job) | Existing(job: Job) | Different | Busy | TooManyReferences

  class ImageQueue {
    var jobs: Jobs
    var leaseUntil: int

    /** The primary key. */
    ghost predicate Valid()
      reads this
    {
      forall id :: id in jobs ==> jobs[id].id == id
    }

    constructor ()
      ensures Valid() && jobs == map[] && leaseUntil == 0
    {
      jobs, leaseUntil := map[], 0;
    }

    method Save(copy: Job) returns (saved: bool, next: Job)
      requires Valid()
      modifies this`jobs
      ensures Valid()
      ensures (jobs, saved, next) == SaveTx(old(jobs), copy)
    {
      next := copy.(revision := copy.revision + 1);
      saved := copy.id in jobs && jobs[copy.id].revision == copy.revision;
      if saved { jobs := jobs[copy.id := next.(slot := jobs[copy.id].slot)]; }
    }

    /** A request id names one job for good: the same request is answered with its job, another one
        is refused. A new job takes the lowest free slot, when its owner has nothing to review. A prompt
        that names Maria leaves one reference less. */
    method Enqueue(request: Request, now: int, maria: bool) returns (r: Enqueued)
      requires Valid()
      modifies this`jobs
      ensures Valid()
      ensures r.TooManyReferences? <==> |request.referenceIds| > if maria then 2 else 3
      ensures r.Existing? || r.Different? <==> request.id in old(jobs) && !r.TooManyReferences?
      ensures r.Existing? ==> r.job == old(jobs)[request.id] && SameRequest(r.job, request)
      ensures r.Different? ==> !SameRequest(old(jobs)[request.id], request)
      ensures r.Stored? ==>
        && Untouched(r.job) && SameRequest(r.job, request) && r.job.updated == now
        && (request.literal ==> r.job.expansion == Some(request.literalText))
        && r.job.id == request.id && r.job.owner == request.owner && r.job.referenceImages == request.referenceImages
        && 1 <= r.job.slot <= 8 && Insertable(old(jobs), r.job, r.job.slot)
        && jobs == old(jobs)[request.id := r.job]
        && forall n :: 1 <= n < r.job.slot ==> !Insertable(old(jobs), r.job, n)
      ensures r.Busy? ==> forall n :: 1 <= n <= 8 ==> !Insertable(old(jobs), NewJob(request, now), n)
      ensures !r.Stored? ==> jobs == old(jobs)
    {
      if |request.referenceIds| > 3 || (maria && |request.referenceIds| > 2) { return TooManyReferences; }
      if request.id in jobs {
        return if SameRequest(jobs[request.id], request) then Existing(jobs[request.id]) else Different;
      }
      var job := NewJob(request, now);
      var slot := 1;
      while slot <= SLOTS
        invariant 1 <= slot <= SLOTS + 1
        invariant jobs == old(jobs)
        invariant forall n :: 1 <= n < slot ==> !Insertable(jobs, job, n)
      {
        if Insertable(jobs, job, slot) {
          jobs := InsertTx(jobs, job, slot);
          assert forall n :: Insertable(old(jobs), job.(slot := slot), n) <==> Insertable(old(jobs), job, n);
          return Stored(job.(slot := slot));
        }
        slot := slot + 1;
      }
      return Busy;
    }

    predicate SameRequest(existing: Job, request: Request) {
      && existing.channel == request.channel && existing.literal == request.literal
      && existing.prompt == request.prompt && existing.referenceIds == request.referenceIds
    }

    /** One job of the worker's pass. */
    method WorkJob(job: Job, w: World) returns (stop: bool, submitted: bool)
      requires Valid()
      modifies this`jobs
      ensures Valid()
      ensures Pass(jobs, stop, submitted) == JobPass(old(jobs), job, w)
    {
      stop, submitted := false, false;
      var saved: bool;
      var copy: Job := job;
      if w.now - copy.updated > RETENTION {
        saved, copy := Save(Change(Expire, copy, w.now));
        return;
      }
      if copy.state !in {Queued, Submitting, Running, Accepting} { return; }
      if copy.state == Accepting {
        if w.now - copy.updated > ACCEPT_LIMIT { saved, copy := Save(Change(Reopen, copy, w.now)); }
        return;
      }
      if copy.state == Submitting {
        copy := Change(FailInterrupted(w.interrupted), copy, w.now);
      } else if copy.state == Queued {
        if copy.expansion.None? {
          saved, copy := Save(Change(Expand(w.expansion), copy, w.now));
          if !saved { return; }
        }
        saved, copy := Save(Transition(copy, Submitting, w.now));
        if !saved { return; }
        submitted := true;
        copy := Settle(copy, w.submission, w.now);
      } else {
        match w.fetch
        case Picture(bytes) => copy := Change(Deliver(bytes), copy, w.now);
        case Pending =>
          if w.now - copy.updated <= RESULT_LIMIT { return; }
          copy := Change(GiveUp(w.timeout), copy, w.now);
        case GenerationFailed(error) => copy := Change(GiveUp(error), copy, w.now);
        case Unreachable(error) =>
          if w.now - copy.updated <= RESULT_LIMIT { return; }
          copy := Change(GiveUp(error), copy, w.now);
      }
      saved, copy := Save(copy);
      stop := true;
    }

    /** The selection query: filter, order and limit. */
    method Select(q: Query) returns (ids: seq<string>)
      ensures Selects(jobs, q, ids)
    {
      ids := [];
      var left := set id | id in jobs && Wanted(q, jobs[id]);
      while left != {} && |ids| < Limit(q)
        invariant |ids| <= Limit(q)
        invariant forall i :: 0 <= i < |ids| ==> ids[i] in jobs && ids[i] !in left && Wanted(q, jobs[ids[i]])
        invariant forall i, j :: 0 <= i < j < |ids| ==> ids[i] != ids[j] && InOrder(q, jobs[ids[i]], jobs[ids[j]])
        invariant forall id :: id in left <==> id in jobs && Wanted(q, jobs[id]) && id !in ids
        invariant forall id, i :: id in left && 0 <= i < |ids| ==> InOrder(q, jobs[ids[i]], jobs[id])
        decreases left
      {
        var first := Earliest(q, left);
        ids := ids + [first];
        left := left - {first};
      }
    }

    method Earliest(q: Query, among: set<string>) returns (first: string)
      requires among != {} && among <= jobs.Keys
      ensures first in among && forall id :: id in among ==> InOrder(q, jobs[first], jobs[id])
    {
      first :| first in among;
      var left := among - {first};
      while left != {}
        invariant left <= among && first in among
        invariant forall id :: id in among && id !in left ==> InOrder(q, jobs[first], jobs[id])
        decreases left
      {
        var id :| id in left;
        if InOrder(q, jobs[id], jobs[first]) { first := id; }
        left := left - {id};
      }
    }

    /** The worker's pass over the jobs it selects at a moment: each is worked on with the copy read then,
        and the pass ends with the first job that ends it. */
    method WorkOne(now: int, worlds: seq<World>) returns (ids: seq<string>, called: seq<string>)
      requires Valid() && |worlds| == 8
      modifies this`jobs
      ensures Valid()
      ensures Selects(old(jobs), Work(now), ids)
      ensures (jobs, called) == Passes(old(jobs), [], Copies(old(jobs), ids), worlds)
    {
      hide JobPass;
      ids := Select(Work(now));
      var snapshot := Copies(jobs, ids);
      called := [];
      var i := 0;
      assert snapshot[0..] == snapshot && worlds[0..] == worlds;
      while i < |snapshot|
        invariant i <= |snapshot| && Valid()
        invariant Passes(jobs, called, snapshot[i..], worlds[i..]) == Passes(old(jobs), [], snapshot, worlds)
      {
        assert snapshot[i..][1..] == snapshot[i + 1..] && worlds[i..][1..] == worlds[i + 1..];
        var stop, submitted := WorkJob(snapshot[i], worlds[i]);
        if submitted { called := called + [snapshot[i].id]; }
        if stop { return; }
        i := i + 1;
      }
    }

    /** A tick works only when the previous lease has run out, and gives the lease back. The clock is read
        for the new lease, for the comparison with the old one, and for the selection. */
    method Tick(started: int, compared: int, now: int, worlds: seq<World>)
      returns (ids: seq<string>, called: seq<string>)
      requires Valid() && |worlds| == 8
      modifies this
      ensures Valid()
      ensures old(leaseUntil) < compared ==>
        && leaseUntil == 0 && Selects(old(jobs), Work(now), ids)
        && (jobs, called) == Passes(old(jobs), [], Copies(old(jobs), ids), worlds)
      ensures old(leaseUntil) >= compared ==> leaseUntil == old(leaseUntil) && jobs == old(jobs) && called == []
    {
      hide Passes, Selects, Copies;
      var lease := started + LEASE;
      if leaseUntil >= compared { return [], []; }
      leaseUntil := lease;
      ids, called := WorkOne(now, worlds);
      if leaseUntil == lease { leaseUntil := 0; }
    }

    /** The listing dismisses what has been posted among the owner's latest jobs and shows the rest,
        without their pictures. */
    method List(owner: string, published: set<string>, now: int) returns (ids: seq<string>, visible: seq<Job>)
      requires Valid()
      modifies this`jobs
      ensures Valid()
      ensures Selects(old(jobs), Listing(owner), ids) && jobs.Keys == old(jobs).Keys
      ensures forall id :: id in jobs ==>
        var row := old(jobs)[id];
        jobs[id] == if id in ids && id in published && row.media.Some?
                    then row.(state := Dismissed, updated := now, image := None, referenceImages := [], prompt := "",
                              expansion := None, revision := row.revision + 1)
                    else row
      ensures forall copy :: copy in visible <==>
        && copy.id in ids && !(copy.id in published && copy.media.Some?)
        && copy == old(jobs)[copy.id].(image := None, referenceImages := [])
    {
      hide DismissAll;
      ids := Select(Listing(owner));
      visible := Dismiss(Projections(jobs, ids), published, now);
      ListedDismissals(old(jobs), ids, published, now);
      forall copy
        ensures copy in Projections(old(jobs), ids) <==>
          copy.id in ids && copy == old(jobs)[copy.id].(image := None, referenceImages := [])
      {
        if i :| 0 <= i < |ids| && ids[i] == copy.id { assert Projections(old(jobs), ids)[i].id == copy.id; }
      }
    }

    /** The loop of the listing over its copies. */
    method Dismiss(copies: seq<Job>, published: set<string>, now: int) returns (visible: seq<Job>)
      requires Valid()
      modifies this`jobs
      ensures Valid() && jobs == DismissAll(old(jobs), copies, published, now)
      ensures forall copy :: copy in visible <==> copy in copies && !Posted(copy, published)
    {
      hide Change;
      visible := [];
      var i := 0;
      while i < |copies|
        invariant i <= |copies| && Valid()
        invariant DismissAll(jobs, copies[i..], published, now) == DismissAll(old(jobs), copies, published, now)
        invariant forall copy :: copy in visible <==> copy in copies[..i] && !Posted(copy, published)
      {
        assert copies[i..][1..] == copies[i + 1..];
        if Posted(copies[i], published) {
          var _, _ := Save(Change(DismissPublished, copies[i], now));
        } else {
          visible := visible + [copies[i]];
        }
        i := i + 1;
      }
    }

    /** The selected rows are dismissed exactly when they are posted. */
    static lemma ListedDismissals(jobs: Jobs, ids: seq<string>, published: set<string>, now: int)
      requires forall id :: id in jobs ==> jobs[id].id == id
      requires forall i :: 0 <= i < |ids| ==> ids[i] in jobs
      requires forall i, j :: 0 <= i < j < |ids| ==> ids[i] != ids[j]
      ensures var dismissed := DismissAll(jobs, Projections(jobs, ids), published, now);
        && dismissed.Keys == jobs.Keys
        && forall id :: id in jobs ==>
          dismissed[id] == if id in ids && Posted(jobs[id], published)
                           then DismissedRow(jobs[id], Projected(jobs[id]), now) else jobs[id]
    {
      var copies := Projections(jobs, ids);
      var dismissed := DismissAll(jobs, copies, published, now);
      forall id ensures id in dismissed <==> id in jobs { DismissesExactlyPosted(jobs, copies, published, now, id); }
      forall id | id in jobs
        ensures dismissed[id] == if id in ids && Posted(jobs[id], published)
                                 then DismissedRow(jobs[id], Projected(jobs[id]), now) else jobs[id]
      {
        DismissesExactlyPosted(jobs, copies, published, now, id);
        if i :| 0 <= i < |ids| && ids[i] == id && Posted(jobs[id], published) {
          assert DismissedBy(jobs, copies, published, id, i);
        }
      }
    }
  }
}
