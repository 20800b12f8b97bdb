/** Image generation jobs: rows, the compare-and-swap save, and the changes the worker, the owner
    and the listing make to a copy of a row before saving it. Jobs bound to an agent are not part
    of this model. */
module ImageJobs {
  import opened Options

  const RETENTION: int := 7 * 24 * 3600
  const ACCEPT_LIMIT: int := 120
  const RESULT_LIMIT: int := 1800
  const LEASE: int := 120
  const SLOTS: nat := 8

  datatype State =
    | Queued | Submitting | Running | Ready | Accepting | Accepted | Failed | Declined | Dismissed | Expired

  datatype Job = Job(
    id: string,
    owner: string,
    channel: string,
    state: State,
    slot: nat,
    prompt: string,
    literal: bool,
    expansion: Option<string>,
    referenceIds: seq<string>,
    referenceImages: seq<string>,
    updated: int,
    revision: nat,
    promptId: Option<string>,
    image: Option<string>,
    media: Option<string>,
    error: Option<string>)

  type Jobs = map<string, Job>

  /** The rows of the queue slot index: requests the image server still owes. */
  predicate Outstanding(s: State) { s == Queued || s == Submitting || s == Running }

  /** The rows of the owner index: jobs the owner has not reviewed. */
  predicate Unreviewed(s: State) { Outstanding(s) || s == Ready || s == Accepting }

  function Transition(job: Job, state: State, now: int): Job { job.(state := state, updated := now) }

  // Requests

  /** What a client asks for. The literal text stands for the expansion in literal mode. */
  datatype Request = Request(
    id: string,
    owner: string,
    channel: string,
    prompt: string,
    literal: bool,
    literalText: string,
    referenceIds: seq<string>,
    referenceImages: seq<string>)

  function NewJob(q: Request, now: int): Job {
    Job(q.id, q.owner, q.channel, Queued, 0, q.prompt, q.literal,
        if q.literal then Some(q.literalText) else None,
        q.referenceIds, q.referenceImages, now, 0, None, None, None, None)
  }

  /** A job that nothing has happened to. */
  predicate Untouched(job: Job) {
    && job.state == Queued && job.revision == 0 && (job.expansion.Some? <==> job.literal)
    && job.promptId.None? && job.image.None? && job.media.None? && job.error.None?
  }

  // Saving

  /** The row is replaced only while it still has the revision the copy was read with. The copy
      moves to the next revision whether or not the row was replaced. */
  function SaveTx(jobs: Jobs, copy: Job): (r: (Jobs, bool, Job)) {
    var next := copy.(revision := copy.revision + 1);
    if copy.id in jobs && jobs[copy.id].revision == copy.revision
    then (jobs[copy.id := next.(slot := jobs[copy.id].slot)], true, next)
    else (jobs, false, next)
  }

  /** What a conflicting row is to an insert: the same id, the same owner with an unreviewed job,
      or the same slot with an outstanding one. */
  predicate Conflicts(row: Job, job: Job, slot: nat) {
    || row.id == job.id
    || (row.owner == job.owner && Unreviewed(row.state))
    || (row.slot == slot && Outstanding(row.state))
  }

  predicate Insertable(jobs: Jobs, job: Job, slot: nat) {
    forall id <- jobs :: !Conflicts(jobs[id], job, slot)
  }

  function InsertTx(jobs: Jobs, job: Job, slot: nat): Jobs {
    if Insertable(jobs, job, slot) then jobs[job.id := job.(slot := slot)] else jobs
  }

  // Changes made to a copy

  datatype Action =
    | Expire
    | Reopen
    | FailInterrupted(error: string)
    | Expand(expansion: Option<string>)
    | Deliver(image: string)
    | GiveUp(error: string)
    | DismissPublished
    | Accept
    | Decline
    | Dismiss

  /** The guard under which the code makes the change. Clock guards are read at the moment of the
      change. */
  predicate May(a: Action, copy: Job, now: int) {
    match a
    case Expire => now - copy.updated > RETENTION
    case Reopen => copy.state == Accepting && now - copy.updated > ACCEPT_LIMIT
    case FailInterrupted(_) => copy.state == Submitting
    case Expand(_) => copy.state == Queued && copy.expansion.None?
    case Deliver(_) => copy.state == Running
    case GiveUp(_) => copy.state == Running
    case DismissPublished => copy.media.Some?
    case Accept => copy.state == Ready
    case Decline => copy.state == Ready || copy.state == Declined
    case Dismiss => copy.state == Accepted || copy.state == Failed || copy.state == Dismissed
  }

  function Emptied(job: Job): Job { job.(image := None, prompt := "", expansion := None) }

  function Change(a: Action, copy: Job, now: int): Job {
    match a
    case Expire => Emptied(Transition(copy, Expired, now)).(referenceImages := [], media := None)
    case Reopen => Transition(copy, Ready, now)
    case FailInterrupted(error) => Transition(copy, Failed, now).(referenceImages := [], error := Some(error))
    case Expand(expansion) => copy.(expansion := expansion)
    case Deliver(image) => Transition(copy, Ready, now).(image := Some(image))
    case GiveUp(error) => Transition(copy, Failed, now).(error := Some(error))
    case DismissPublished => Emptied(Transition(copy, Dismissed, now))
    case Accept => Transition(copy, Accepting, now)
    case Decline => Emptied(Transition(copy, Declined, now))
    case Dismiss => Emptied(Transition(copy, Dismissed, now))
  }

  /** The answer to an external submission: the image server's id, or nothing that confirms it. */
  datatype Submission = Confirmed(promptId: string) | Unconfirmed(error: string)

  function Settle(copy: Job, answer: Submission, now: int): Job {
    match answer
    case Confirmed(id) => Transition(copy, Running, now).(promptId := Some(id), referenceImages := [])
    case Unconfirmed(error) => Transition(copy, Failed, now).(error := Some(error), referenceImages := [])
  }

  /** The listing reads rows without their pictures. */
  function Projected(job: Job): Job { job.(image := None, referenceImages := []) }

  // The worker's pass over one job, run without interference

  datatype Fetch = Picture(bytes: string) | Pending | GenerationFailed(error: string) | Unreachable(error: string)

  /** Everything outside the database that one pass over a job may consult, with its clock reading. */
  datatype World = World(
    now: int, expansion: Option<string>, submission: Submission, fetch: Fetch, interrupted: string, timeout: string)

  /** stop ends the tick; submitted records that the image server was called. */
  datatype Pass = Pass(jobs: Jobs, stop: bool, submitted: bool)

  function SubmitPass(jobs: Jobs, job: Job, w: World): Pass {
    var (claimed, ok, copy) := SaveTx(jobs, Transition(job, Submitting, w.now));
    if ok then Pass(SaveTx(claimed, Settle(copy, w.submission, w.now)).0, true, true)
    else Pass(jobs, false, false)
  }

  function QueuedPass(jobs: Jobs, job: Job, w: World): Pass {
    if job.expansion.None? then
      var (expanded, ok, copy) := SaveTx(jobs, Change(Expand(w.expansion), job, w.now));
      if ok then SubmitPass(expanded, copy, w) else Pass(jobs, false, false)
    else SubmitPass(jobs, job, w)
  }

  function RunningPass(jobs: Jobs, job: Job, w: World): Pass {
    match w.fetch
    case Picture(bytes) => Pass(SaveTx(jobs, Change(Deliver(bytes), job, w.now)).0, true, false)
    case Pending =>
      if w.now - job.updated <= RESULT_LIMIT then Pass(jobs, false, false)
      else Pass(SaveTx(jobs, Change(GiveUp(w.timeout), job, w.now)).0, true, false)
    case GenerationFailed(error) => Pass(SaveTx(jobs, Change(GiveUp(error), job, w.now)).0, true, false)
    case Unreachable(error) =>
      if w.now - job.updated <= RESULT_LIMIT then Pass(jobs, false, false)
      else Pass(SaveTx(jobs, Change(GiveUp(error), job, w.now)).0, true, false)
  }

  function JobPass(jobs: Jobs, job: Job, w: World): Pass {
    if w.now - job.updated > RETENTION then Pass(SaveTx(jobs, Change(Expire, job, w.now)).0, false, false)
    else match job.state
      case Accepting =>
        if w.now - job.updated > ACCEPT_LIMIT then Pass(SaveTx(jobs, Change(Reopen, job, w.now)).0, false, false)
        else Pass(jobs, false, false)
      case Submitting => Pass(SaveTx(jobs, Change(FailInterrupted(w.interrupted), job, w.now)).0, true, false)
      case Queued => QueuedPass(jobs, job, w)
      case Running => RunningPass(jobs, job, w)
      case _ => Pass(jobs, false, false)
  }

  /** The pass over a snapshot stops at the first job that ends it; called are the jobs submitted
      so far. */
  function Passes(jobs: Jobs, called: seq<string>, snapshot: seq<Job>, worlds: seq<World>): (r: (Jobs, seq<string>))
    requires |snapshot| <= |worlds|
    decreases snapshot
  {
    if snapshot == [] then (jobs, called)
    else
      var pass := JobPass(jobs, snapshot[0], worlds[0]);
      var calls := if pass.submitted then called + [snapshot[0].id] else called;
      if pass.stop then (pass.jobs, calls)
      else Passes(pass.jobs, calls, snapshot[1..], worlds[1..])
  }

  // Selections

  /** The worker asks for jobs to work on or to expire, longest untouched first; the listing for an
      owner's open jobs, latest first. */
  datatype Query = Work(now: int) | Listing(owner: string)

  predicate Wanted(q: Query, job: Job) {
    match q
    case Work(now) =>
      || job.state == Queued || job.state == Submitting || job.state == Running || job.state == Accepting
      || (job.state != Expired && job.state != Declined && job.state != Dismissed && job.updated < now - RETENTION)
    case Listing(owner) => job.owner == owner && job.state != Declined && job.state != Dismissed && job.state != Expired
  }

  predicate InOrder(q: Query, a: Job, b: Job) { if q.Work? then a.updated <= b.updated else a.updated >= b.updated }

  function Limit(q: Query): nat { if q.Work? then 8 else 20 }

  /** Wanted rows in order, each once, and every wanted row left out comes after a full selection. */
  ghost predicate Selects(jobs: Jobs, q: Query, ids: seq<string>) {
    && |ids| <= Limit(q)
    && (forall i :: 0 <= i < |ids| ==> ids[i] in jobs && Wanted(q, jobs[ids[i]]))
    && (forall i, j :: 0 <= i < j < |ids| ==> ids[i] != ids[j] && InOrder(q, jobs[ids[i]], jobs[ids[j]]))
    && (forall id :: id in jobs && Wanted(q, jobs[id]) && id !in ids ==> |ids| == Limit(q))
    && (forall id, i :: id in jobs && Wanted(q, jobs[id]) && id !in ids && 0 <= i < |ids| ==>
          InOrder(q, jobs[ids[i]], jobs[id]))
  }

  function Copies(jobs: Jobs, ids: seq<string>): seq<Job>
    requires forall i :: 0 <= i < |ids| ==> ids[i] in jobs
  {
    seq(|ids|, i requires 0 <= i < |ids| => jobs[ids[i]])
  }

  function Projections(jobs: Jobs, ids: seq<string>): seq<Job>
    requires forall i :: 0 <= i < |ids| ==> ids[i] in jobs
  {
    seq(|ids|, i requires 0 <= i < |ids| => Projected(jobs[ids[i]]))
  }

  /** The listing dismisses a copy whose picture has been posted. */
  predicate Posted(copy: Job, published: set<string>) { copy.id in published && copy.media.Some? }

  /** A posted copy of the row that still has the row's revision. */
  ghost predicate DismissedBy(jobs: Jobs, copies: seq<Job>, published: set<string>, id: string, i: nat) {
    && i < |copies| && copies[i].id == id && Posted(copies[i], published)
    && id in jobs && jobs[id].revision == copies[i].revision
  }

  function DismissAll(jobs: Jobs, copies: seq<Job>, published: set<string>, now: int): Jobs {
    if copies == [] then jobs
    else if Posted(copies[0], published)
    then DismissAll(SaveTx(jobs, Change(DismissPublished, copies[0], now)).0, copies[1..], published, now)
    else DismissAll(jobs, copies[1..], published, now)
  }

  /** What a dismissed row becomes: its picture, prompt and expansion are gone, one revision on. */
  function DismissedRow(row: Job, copy: Job, now: int): Job {
    copy.(state := Dismissed, updated := now, image := None, prompt := "", expansion := None,
      revision := row.revision + 1, slot := row.slot)
  }

  /** Dismissing keeps the rows and replaces exactly those with a posted copy of their own revision. */
  lemma {:induction false} DismissesExactlyPosted(
    jobs: Jobs, copies: seq<Job>, published: set<string>, now: int, id: string)
    requires forall i, j :: 0 <= i < j < |copies| ==> copies[i].id != copies[j].id
    ensures id in DismissAll(jobs, copies, published, now) <==> id in jobs
    ensures forall i: nat :: DismissedBy(jobs, copies, published, id, i) ==>
      DismissAll(jobs, copies, published, now)[id] == DismissedRow(jobs[id], copies[i], now)
    ensures id in jobs && (forall i: nat :: !DismissedBy(jobs, copies, published, id, i)) ==>
      DismissAll(jobs, copies, published, now)[id] == jobs[id]
    decreases copies
  {
    if copies != [] {
      var first, rest := copies[0], copies[1..];
      var next := if Posted(first, published) then SaveTx(jobs, Change(DismissPublished, first, now)).0 else jobs;
      DismissesExactlyPosted(next, rest, published, now, id);
      FirstDismissal(jobs, copies, published, now, id);
      forall i: nat | DismissedBy(jobs, copies, published, id, i)
        ensures DismissAll(jobs, copies, published, now)[id] == DismissedRow(jobs[id], copies[i], now)
      {
        if i > 0 {
          assert DismissedBy(next, rest, published, id, i - 1);
        } else {
          assert forall k: nat :: !DismissedBy(next, rest, published, id, k);
        }
      }
    }
  }

  /** One posted copy changes its own row only, and later copies see the other rows as before. */
  lemma FirstDismissal(jobs: Jobs, copies: seq<Job>, published: set<string>, now: int, id: string)
    requires copies != [] && forall i, j :: 0 <= i < j < |copies| ==> copies[i].id != copies[j].id
    ensures var next := if Posted(copies[0], published) then SaveTx(jobs, Change(DismissPublished, copies[0], now)).0
                        else jobs;
      && (id in next <==> id in jobs)
      && (id in jobs ==>
            next[id] == if DismissedBy(jobs, copies, published, id, 0) then DismissedRow(jobs[id], copies[0], now)
                        else jobs[id])
      && (forall i: nat :: DismissedBy(next, copies[1..], published, id, i)
            <==> DismissedBy(jobs, copies, published, id, i + 1))
  {
    var rest := copies[1..];
    var next := if Posted(copies[0], published) then SaveTx(jobs, Change(DismissPublished, copies[0], now)).0 else jobs;
    forall i: nat
      ensures DismissedBy(next, rest, published, id, i) <==> DismissedBy(jobs, copies, published, id, i + 1)
    {
      if i < |rest| { assert rest[i] == copies[i + 1] && copies[0].id != copies[i + 1].id; }
    }
  }
}
