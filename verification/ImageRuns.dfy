/** Runs of the image job queue: any number of workers, owners and listings, each holding copies of
    rows that others may have replaced, stopping anywhere, with or without the worker lease. */
module ImageRuns {
  import opened Options
  import opened ImageJobs

  /** A process between two of its steps on one job. */
  datatype Process =
    | Lists(copy: Job)
    | Holds(copy: Job)
    | Accepts(copy: Job)
    | Submits(copy: Job)
    | Answered(copy: Job)

  /** submitted logs the jobs the image server was called for. */
  datatype System = System(jobs: Jobs, procs: map<nat, Process>, clock: int, submitted: seq<string>)

  datatype Event =
    | Clock(now: int)
    | Insert(job: Job, slot: nat)
    | Read(pid: nat, id: string)
    | List(pid: nat, id: string)
    | Save(pid: nat, action: Action)
    | Claim(pid: nat)
    | Submit(pid: nat)
    | Confirm(pid: nat, answer: Submission)
    | StoreMedia(pid: nat, media: Option<string>)
    | Crash(pid: nat)

  const Init := System(map[], map[], 0, [])

  ghost predicate Enabled(s: System, e: Event) {
    match e
    case Clock(_) => true
    case Insert(job, slot) => Untouched(job) && 1 <= slot <= SLOTS
    case Read(pid, id) => pid !in s.procs && id in s.jobs
    case List(pid, id) => pid !in s.procs && id in s.jobs
    case Save(pid, a) =>
      && pid in s.procs && May(a, s.procs[pid].copy, s.clock)
      && (s.procs[pid].Holds? || s.procs[pid].Lists?) && (s.procs[pid].Lists? <==> a.DismissPublished?)
    case Claim(pid) => pid in s.procs && s.procs[pid].Holds? && s.procs[pid].copy.state == Queued
    case Submit(pid) => pid in s.procs && s.procs[pid].Submits?
    case Confirm(pid, _) => pid in s.procs && s.procs[pid].Answered?
    case StoreMedia(pid, _) => pid in s.procs && s.procs[pid].Accepts?
    case Crash(pid) => pid in s.procs
  }

  function Then(procs: map<nat, Process>, pid: nat, next: Option<Process>): map<nat, Process> {
    if next.Some? then procs[pid := next.value] else procs - {pid}
  }

  predicate Saves(e: Event) { e.Save? || e.Claim? || e.Confirm? || e.StoreMedia? }

  /** The changed copy that the event tries to save. */
  ghost function Written(s: System, e: Event): Job
    requires Enabled(s, e) && Saves(e)
  {
    var copy := s.procs[e.pid].copy;
    match e
    case Save(_, a) => Change(a, copy, s.clock)
    case Claim(_) => Transition(copy, Submitting, s.clock)
    case Confirm(_, answer) => Settle(copy, answer, s.clock)
    case StoreMedia(_, media) =>
      if media.Some? then Transition(copy, Accepted, s.clock).(media := media) else Transition(copy, Ready, s.clock)
  }

  /** After a save that replaced nothing, and after a last save, the copy is dropped. The drop matters:
      a failed save has moved the copy to the next revision, where saving it again could replace a row
      that is one revision ahead. */
  function Continues(e: Event, ok: bool, copy: Job): Option<Process> {
    if !ok then None
    else match e
      case Save(_, Expand(_)) => Some(Holds(copy))
      case Save(_, Accept) => Some(Accepts(copy))
      case Claim(_) => Some(Submits(copy))
      case _ => None
  }

  ghost function Next(s: System, e: Event): System
    requires Enabled(s, e)
  {
    match e
    case Clock(now) => s.(clock := now)
    case Insert(job, slot) => s.(jobs := InsertTx(s.jobs, job, slot))
    case Read(pid, id) => s.(procs := s.procs[pid := Holds(s.jobs[id])])
    case List(pid, id) => s.(procs := s.procs[pid := Lists(Projected(s.jobs[id]))])
    case Submit(pid) =>
      s.(procs := s.procs[pid := Answered(s.procs[pid].copy)], submitted := s.submitted + [s.procs[pid].copy.id])
    case Crash(pid) => s.(procs := s.procs - {pid})
    case _ =>
      var (jobs, ok, copy) := SaveTx(s.jobs, Written(s, e));
      s.(jobs := jobs, procs := Then(s.procs, e.pid, Continues(e, ok, copy)))
  }

  // The invariant

  ghost predicate ProcessOk(jobs: Jobs, p: Process) {
    && p.copy.id in jobs
    && p.copy.revision <= jobs[p.copy.id].revision
    && (p.copy.revision == jobs[p.copy.id].revision ==>
          p.copy == if p.Lists? then Projected(jobs[p.copy.id]) else jobs[p.copy.id])
    && (p.Submits? || p.Answered? ==> p.copy.state == Submitting && jobs[p.copy.id].state != Queued)
    && (p.Accepts? ==> p.copy.state == Accepting)
  }

  ghost predicate RowsOk(jobs: Jobs) {
    && (forall id :: id in jobs ==> jobs[id].id == id)
    && (forall id :: id in jobs && Outstanding(jobs[id].state) ==> 1 <= jobs[id].slot <= SLOTS)
    && (forall id, other :: SameSlot(jobs, id, other) ==> id == other)
    && (forall id, other :: SameOwner(jobs, id, other) ==> id == other)
  }

  ghost predicate SameSlot(jobs: Jobs, id: string, other: string) {
    && id in jobs && other in jobs && Outstanding(jobs[id].state) && Outstanding(jobs[other].state)
    && jobs[id].slot == jobs[other].slot
  }

  ghost predicate SameOwner(jobs: Jobs, id: string, other: string) {
    && id in jobs && other in jobs && Unreviewed(jobs[id].state) && Unreviewed(jobs[other].state)
    && jobs[id].owner == jobs[other].owner
  }

  ghost predicate About(s: System, pid: nat, id: string) {
    pid in s.procs && s.procs[pid].Submits? && s.procs[pid].copy.id == id
  }

  /** Nothing can call the image server for the job any more. */
  ghost predicate Spent(s: System, id: string) {
    && id in s.jobs && s.jobs[id].state != Queued
    && forall pid :: !About(s, pid, id)
  }

  ghost predicate SubmissionsOk(s: System) {
    && (forall id, p, q :: About(s, p, id) && About(s, q, id) ==> p == q)
    && (forall id :: id in s.submitted ==> Spent(s, id))
    && (forall i, j :: 0 <= i < j < |s.submitted| ==> s.submitted[i] != s.submitted[j])
  }

  ghost predicate Inv(s: System) {
    && RowsOk(s.jobs)
    && (forall pid :: pid in s.procs ==> ProcessOk(s.jobs, s.procs[pid]))
    && SubmissionsOk(s)
  }

  // One event

  /** A row either stays or is replaced by the next revision, and never returns to the queue, to an
      outstanding state or to review. */
  ghost predicate RowStep(row: Job, row': Job) {
    || row' == row
    || (&& row'.id == row.id && row'.owner == row.owner && row'.slot == row.slot
        && row'.revision == row.revision + 1
        && (row'.state == Queued ==> row.state == Queued)
        && (Outstanding(row'.state) ==> Outstanding(row.state))
        && (Unreviewed(row'.state) ==> Unreviewed(row.state)))
  }

  lemma ChangeSteps(a: Action, copy: Job, now: int)
    requires May(a, copy, now)
    ensures var row := Change(a, copy, now);
      && row.id == copy.id && row.owner == copy.owner && row.revision == copy.revision
      && (row.state == Queued ==> copy.state == Queued)
      && (Outstanding(row.state) ==> Outstanding(copy.state))
      && (Unreviewed(row.state) ==> Unreviewed(copy.state))
  {
  }

  /** What is saved over the row it was read from is a legal next revision of that row. */
  lemma WrittenSteps(s: System, e: Event, row: Job)
    requires Enabled(s, e) && Saves(e)
    requires ProcessOk(s.jobs, s.procs[e.pid]) && row == s.jobs[s.procs[e.pid].copy.id]
    requires s.procs[e.pid].copy.revision == row.revision
    ensures RowStep(row, Written(s, e).(revision := row.revision + 1, slot := row.slot))
  {
    if e.Save? {
      ChangeSteps(e.action, s.procs[e.pid].copy, s.clock);
      hide Change, May;
    }
  }

  lemma WrittenKeeps(s: System, e: Event)
    requires Enabled(s, e) && Saves(e)
    ensures var copy, written := s.procs[e.pid].copy, Written(s, e);
      && written.id == copy.id && written.revision == copy.revision && written.slot == copy.slot
      && (e.Claim? ==> written.state == Submitting) && (e.Save? && e.action.Accept? ==> written.state == Accepting)
  {
  }

  lemma RowFate(s: System, e: Event, id: string)
    requires Inv(s) && Enabled(s, e) && id in s.jobs
    ensures id in Next(s, e).jobs && RowStep(s.jobs[id], Next(s, e).jobs[id])
  {
    hide SubmissionsOk, SameSlot, SameOwner, Written, RowStep, Outstanding, Unreviewed;
    SameRowSteps(s.jobs[id]);
    if Saves(e) {
      WrittenKeeps(s, e);
      var p := s.procs[e.pid];
      assert ProcessOk(s.jobs, p);
      if p.copy.revision == s.jobs[p.copy.id].revision { WrittenSteps(s, e, s.jobs[p.copy.id]); }
    }
  }

  lemma SameRowSteps(row: Job)
    ensures RowStep(row, row)
  {
  }

  /** Only an insert adds a row, and only beside rows it does not conflict with. */
  lemma NewRow(s: System, e: Event)
    requires Inv(s) && Enabled(s, e)
    ensures Next(s, e).jobs.Keys == s.jobs.Keys || Inserts(s, e)
    ensures Inserts(s, e) ==> Next(s, e).jobs == s.jobs[e.job.id := e.job.(slot := e.slot)]
  {
    hide SubmissionsOk, SameSlot, SameOwner, Written, Outstanding, Unreviewed;
    if Saves(e) {
      WrittenKeeps(s, e);
      assert ProcessOk(s.jobs, s.procs[e.pid]);
    }
  }

  ghost predicate Inserts(s: System, e: Event) {
    e.Insert? && Insertable(s.jobs, e.job, e.slot) && 1 <= e.slot <= SLOTS
  }

  lemma RowKept(s: System, e: Event, id: string)
    requires Inv(s) && Enabled(s, e) && id in Next(s, e).jobs
    ensures var row := Next(s, e).jobs[id];
      row.id == id && (Outstanding(row.state) ==> 1 <= row.slot <= SLOTS)
  {
    hide SubmissionsOk, Next, Enabled, Outstanding, Unreviewed, SameSlot, SameOwner, Insertable;
    NewRow(s, e);
    if id in s.jobs { RowFate(s, e, id); }
  }

  lemma RowsKept(s: System, e: Event)
    requires Inv(s) && Enabled(s, e)
    ensures RowsOk(Next(s, e).jobs)
  {
    hide Inv, Next, Enabled, Outstanding, SameSlot, SameOwner;
    var jobs := Next(s, e).jobs;
    forall id | id in jobs
      ensures jobs[id].id == id && (Outstanding(jobs[id].state) ==> 1 <= jobs[id].slot <= SLOTS)
    {
      RowKept(s, e, id);
    }
    forall id, other | SameSlot(jobs, id, other) || SameOwner(jobs, id, other) ensures id == other {
      PairKept(s, e, id, other);
    }
  }

  lemma PairKept(s: System, e: Event, id: string, other: string)
    requires Inv(s) && Enabled(s, e)
    requires SameSlot(Next(s, e).jobs, id, other) || SameOwner(Next(s, e).jobs, id, other)
    ensures id == other
  {
    hide SubmissionsOk, Next, Enabled, Outstanding, Unreviewed;
    NewRow(s, e);
    if id in s.jobs { RowFate(s, e, id); }
    if other in s.jobs { RowFate(s, e, other); }
    assert id in s.jobs && other in s.jobs ==> SameSlot(s.jobs, id, other) || SameOwner(s.jobs, id, other);
  }

  /** A process that the event leaves alone still agrees with the rows. */
  lemma ProcessLater(s: System, e: Event, p: Process)
    requires Inv(s) && Enabled(s, e) && ProcessOk(s.jobs, p)
    ensures ProcessOk(Next(s, e).jobs, p)
  {
    hide SubmissionsOk, Next, Enabled, Outstanding, Unreviewed, SameSlot, SameOwner;
    RowFate(s, e, p.copy.id);
  }

  /** A process that goes on after its save holds exactly the row it has written. */
  lemma WriterGoesOn(s: System, e: Event)
    requires Enabled(s, e) && Saves(e) && ProcessOk(s.jobs, s.procs[e.pid])
    ensures e.pid in Next(s, e).procs ==> ProcessOk(Next(s, e).jobs, Next(s, e).procs[e.pid])
  {
    WrittenKeeps(s, e);
    hide Written;
  }

  lemma ProcessesKept(s: System, e: Event, pid: nat)
    requires Inv(s) && Enabled(s, e) && pid in Next(s, e).procs
    ensures ProcessOk(Next(s, e).jobs, Next(s, e).procs[pid])
  {
    hide SubmissionsOk, Outstanding, Unreviewed, SameSlot, SameOwner, Written, RowsOk, ProcessOk, SaveTx;
    if pid in s.procs { ProcessLater(s, e, s.procs[pid]); }
    if Saves(e) { WriterGoesOn(s, e); }
    if e.Read? || e.List? || e.Submit? { StarterOk(s, e); }
  }

  lemma StarterOk(s: System, e: Event)
    requires Enabled(s, e) && RowsOk(s.jobs) && (e.Read? || e.List? || e.Submit?)
    requires e.Submit? ==> ProcessOk(s.jobs, s.procs[e.pid])
    ensures ProcessOk(Next(s, e).jobs, Next(s, e).procs[e.pid])
  {
    hide SameSlot, SameOwner, Outstanding;
  }

  /** A successful claim finds the row queued, and leaves it submitting. */
  lemma ClaimTakesQueued(s: System, e: Event)
    requires Inv(s) && Enabled(s, e) && e.Claim? && e.pid in Next(s, e).procs
    ensures var id := s.procs[e.pid].copy.id;
      && id in s.jobs && s.jobs[id].state == Queued && s.jobs[id] == s.procs[e.pid].copy
      && id in Next(s, e).jobs && Next(s, e).jobs[id].state == Submitting && About(Next(s, e), e.pid, id)
  {
    hide SubmissionsOk, SameSlot, SameOwner;
    assert ProcessOk(s.jobs, s.procs[e.pid]);
  }

  /** A process is about to submit only if it was before, or has just claimed the job. */
  lemma AboutFrom(s: System, e: Event, pid: nat, id: string)
    requires Inv(s) && Enabled(s, e) && About(Next(s, e), pid, id)
    ensures About(s, pid, id) || (e.Claim? && e.pid == pid && s.procs[pid].copy.id == id)
    ensures !(e.Submit? && e.pid == pid)
  {
    hide SubmissionsOk, RowsOk, ProcessOk;
  }

  lemma SpentStays(s: System, e: Event, id: string)
    requires Inv(s) && Enabled(s, e) && Spent(s, id)
    ensures Spent(Next(s, e), id)
  {
    hide SubmissionsOk, RowsOk, ProcessOk, Next, Enabled;
    RowFate(s, e, id);
    forall pid ensures !About(Next(s, e), pid, id) {
      if About(Next(s, e), pid, id) {
        AboutFrom(s, e, pid, id);
        ClaimTakesQueued(s, e);
      }
    }
  }

  /** The call to the image server spends the job. */
  lemma SubmitSpends(s: System, e: Event)
    requires Inv(s) && Enabled(s, e) && e.Submit?
    ensures var id := s.procs[e.pid].copy.id;
      !Spent(s, id) && Spent(Next(s, e), id) && Next(s, e).submitted == s.submitted + [id]
  {
    hide RowsOk;
    var id := s.procs[e.pid].copy.id;
    assert About(s, e.pid, id) && ProcessOk(s.jobs, s.procs[e.pid]);
    assert forall pid :: About(Next(s, e), pid, id) ==> About(s, pid, id);
  }

  lemma OneAbout(s: System, e: Event, id: string, p: nat, q: nat)
    requires Inv(s) && Enabled(s, e) && About(Next(s, e), p, id) && About(Next(s, e), q, id)
    ensures p == q
  {
    hide RowsOk, ProcessOk, Next, Enabled;
    AboutFrom(s, e, p, id);
    AboutFrom(s, e, q, id);
    if p != q && e.Claim? && (e.pid == p || e.pid == q) {
      ClaimTakesQueued(s, e);
      var holder := if e.pid == p then q else p;
      assert About(s, holder, id);
      assert ProcessOk(s.jobs, s.procs[holder]);
      SubmitsUnqueued(s, holder);
    }
  }

  lemma SubmitsUnqueued(s: System, pid: nat)
    requires pid in s.procs && ProcessOk(s.jobs, s.procs[pid]) && s.procs[pid].Submits?
    ensures s.jobs[s.procs[pid].copy.id].state != Queued
  {
  }

  lemma SubmissionsKept(s: System, e: Event)
    requires Inv(s) && Enabled(s, e)
    ensures SubmissionsOk(Next(s, e))
  {
    var s' := Next(s, e);
    forall id, p, q | About(s', p, id) && About(s', q, id) ensures p == q { OneAbout(s, e, id, p, q); }
    if e.Submit? { SubmitSpends(s, e); }
    assert s'.submitted == s.submitted || e.Submit? by { hide *; LogGrows(s, e); }
    hide RowsOk, ProcessOk, Next, Enabled;
    forall id | id in s'.submitted ensures Spent(s', id) {
      if id in s.submitted { SpentStays(s, e, id); }
    }
  }

  lemma LogGrows(s: System, e: Event)
    requires Enabled(s, e)
    ensures Next(s, e).submitted == s.submitted || e.Submit?
  {
  }

  lemma InvKept(s: System, e: Event)
    requires Inv(s) && Enabled(s, e)
    ensures Inv(Next(s, e))
  {
    hide RowsOk, ProcessOk, SubmissionsOk, Next, Enabled;
    RowsKept(s, e);
    SubmissionsKept(s, e);
    forall pid | pid in Next(s, e).procs ensures ProcessOk(Next(s, e).jobs, Next(s, e).procs[pid]) {
      ProcessesKept(s, e, pid);
    }
  }

  // Whole runs

  ghost predicate IsRun(states: seq<System>, events: seq<Event>) {
    && |states| == |events| + 1 && states[0] == Init
    && forall i {:trigger events[i]} :: 0 <= i < |events| ==>
      Enabled(states[i], events[i]) && states[i + 1] == Next(states[i], events[i])
  }

  lemma {:induction false} RunInv(states: seq<System>, events: seq<Event>, i: nat)
    requires IsRun(states, events) && i < |states|
    ensures Inv(states[i])
  {
    hide Inv, Next, Enabled;
    if i == 0 {
      InitInv();
    } else {
      RunInv(states, events, i - 1);
      assert events[i - 1] == events[i - 1];
      InvKept(states[i - 1], events[i - 1]);
    }
  }

  lemma InitInv()
    ensures Inv(Init)
  {
  }

  /** Over any run the image server is called at most once for a job. */
  lemma SubmittedAtMostOnce(states: seq<System>, events: seq<Event>, i: nat, j: nat)
    requires IsRun(states, events) && i < j < |events| && events[i].Submit? && events[j].Submit?
    ensures states[i].procs[events[i].pid].copy.id != states[j].procs[events[j].pid].copy.id
  {
    hide Inv, Next, Spent;
    RunInv(states, events, i);
    RunInv(states, events, j);
    SubmitSpends(states[i], events[i]);
    SubmitSpends(states[j], events[j]);
    SpentForever(states, events, i + 1, j, states[i].procs[events[i].pid].copy.id);
  }

  lemma {:induction false} SpentForever(states: seq<System>, events: seq<Event>, i: nat, j: nat, id: string)
    requires IsRun(states, events) && i <= j < |states| && Spent(states[i], id)
    ensures Spent(states[j], id)
    decreases j - i
  {
    hide Inv, Next, Enabled, Spent;
    if i < j {
      RunInv(states, events, i);
      assert events[i] == events[i];
      SpentStays(states[i], events[i], id);
      SpentForever(states, events, i + 1, j, id);
    }
  }

  /** Every call follows a claim by the same process that moved the job from queued to submitting. */
  lemma {:induction false} SubmitFollowsClaim(states: seq<System>, events: seq<Event>, i: nat, pid: nat, id: string)
    returns (j: nat)
    requires IsRun(states, events) && i < |states| && About(states[i], pid, id)
    ensures j < i && events[j] == Claim(pid) && id in states[j].jobs && id in states[j + 1].jobs
    ensures states[j].jobs[id].state == Queued && states[j + 1].jobs[id].state == Submitting
    ensures forall k :: j < k <= i ==> About(states[k], pid, id)
  {
    hide Inv, Next, Enabled;
    j := i - 1;
    assert events[j] == events[j];
    RunInv(states, events, j);
    AboutFrom(states[j], events[j], pid, id);
    if About(states[j], pid, id) {
      j := SubmitFollowsClaim(states, events, j, pid, id);
    } else {
      ClaimTakesQueued(states[j], events[j]);
    }
  }

  /** A row only moves to later revisions, keeps its content while its revision stays, and never
      comes back to the queue. */
  lemma {:induction false} RowsMoveForward(states: seq<System>, events: seq<Event>, i: nat, j: nat, id: string)
    requires IsRun(states, events) && i <= j < |states| && id in states[i].jobs
    ensures id in states[j].jobs
    ensures states[i].jobs[id].revision <= states[j].jobs[id].revision
    ensures states[i].jobs[id].revision == states[j].jobs[id].revision ==> states[i].jobs[id] == states[j].jobs[id]
    ensures states[j].jobs[id].state == Queued ==> states[i].jobs[id].state == Queued
    decreases j - i
  {
    hide Inv, Next, Enabled;
    if i < j {
      RunInv(states, events, i);
      assert events[i] == events[i];
      RowFate(states[i], events[i], id);
      RowsMoveForward(states, events, i + 1, j, id);
    }
  }

  /** A process that read a row at i and whose save at j replaces the row overwrites nothing newer:
      the row was untouched all the time in between. */
  lemma StaleNeverOverwrites(states: seq<System>, events: seq<Event>, i: nat, j: nat, k: nat, copy: Job)
    requires IsRun(states, events) && i <= k <= j < |events| && copy.id in states[i].jobs
    requires copy == states[i].jobs[copy.id] || copy == Projected(states[i].jobs[copy.id])
    requires Saves(events[j]) && states[j].procs[events[j].pid].copy == copy
    requires states[j].jobs != states[j + 1].jobs
    ensures copy.id in states[k].jobs && states[k].jobs[copy.id] == states[i].jobs[copy.id]
    ensures copy.id in states[j + 1].jobs && states[j + 1].jobs[copy.id].revision == copy.revision + 1
    ensures forall other :: other in states[j].jobs && other != copy.id ==>
      other in states[j + 1].jobs && states[j + 1].jobs[other] == states[j].jobs[other]
  {
    hide Inv, Enabled, Written;
    assert events[j] == events[j];
    WrittenKeeps(states[j], events[j]);
    RowsMoveForward(states, events, i, j, copy.id);
    RowsMoveForward(states, events, i, k, copy.id);
    RowsMoveForward(states, events, k, j, copy.id);
  }

  /** The owner's job is not through review. */
  ghost predicate Awaits(s: System, id: string, owner: string) {
    && id in s.jobs && s.jobs[id].owner == owner
    && s.jobs[id].state in {Queued, Submitting, Running, Ready, Accepting}
  }

  /** At most eight requests are outstanding and no owner has two unreviewed jobs. */
  lemma QueueIsBounded(states: seq<System>, events: seq<Event>, i: nat)
    requires IsRun(states, events) && i < |states|
    ensures var jobs := states[i].jobs;
      |set id | id in jobs && jobs[id].state in {Queued, Submitting, Running}| <= 8
    ensures forall id, other, owner :: Awaits(states[i], id, owner) && Awaits(states[i], other, owner) ==> id == other
  {
    hide Next, Enabled, ProcessOk, SubmissionsOk, RowsOk, IsRun;
    RunInv(states, events, i);
    SlotsBound(states[i].jobs);
    forall id, other, owner | Awaits(states[i], id, owner) && Awaits(states[i], other, owner) ensures id == other {
      OwnersDiffer(states[i].jobs, id, other);
    }
  }

  lemma SlotsBound(jobs: Jobs)
    requires RowsOk(jobs)
    ensures |set id | id in jobs && jobs[id].state in {Queued, Submitting, Running}| <= 8
  {
    hide SameOwner;
    var ids := set id | id in jobs && jobs[id].state in {Queued, Submitting, Running};
    assert forall id, other :: id in ids && other in ids && jobs[id].slot == jobs[other].slot ==>
      SameSlot(jobs, id, other);
    Pigeonhole(jobs, ids, 8);
  }

  lemma OwnersDiffer(jobs: Jobs, id: string, other: string)
    requires RowsOk(jobs) && SameOwner(jobs, id, other)
    ensures id == other
  {
    hide SameSlot, SameOwner;
  }

  lemma {:induction false} Pigeonhole(jobs: Jobs, ids: set<string>, n: nat)
    requires forall id :: id in ids ==> id in jobs && 1 <= jobs[id].slot <= n
    requires forall id, other :: id in ids && other in ids && jobs[id].slot == jobs[other].slot ==> id == other
    ensures |ids| <= n
  {
    if n == 0 {
      if id :| id in ids { assert false; }
    } else if id :| id in ids && jobs[id].slot == n {
      Pigeonhole(jobs, ids - {id}, n - 1);
    } else {
      Pigeonhole(jobs, ids, n - 1);
    }
  }

  // The worker's uninterrupted pass is one of the runs

  ghost predicate Enables(s: System, events: seq<Event>)
    decreases events
  {
    events != [] ==> Enabled(s, events[0]) && Enables(Next(s, events[0]), events[1..])
  }

  ghost function After(s: System, events: seq<Event>): System
    requires Enables(s, events)
    decreases events
  {
    if events == [] then s else After(Next(s, events[0]), events[1..])
  }

  function SubmitEvents(pid: nat, ok: bool, w: World): seq<Event> {
    if ok then [Claim(pid), Submit(pid), Confirm(pid, w.submission)] else [Claim(pid)]
  }

  function QueuedEvents(pid: nat, job: Job, ok: bool, w: World): seq<Event> {
    if job.expansion.Some? then SubmitEvents(pid, ok, w)
    else [Save(pid, Expand(w.expansion))] + if ok then SubmitEvents(pid, true, w) else []
  }

  function FetchEvents(pid: nat, job: Job, w: World): seq<Event> {
    match w.fetch
    case Picture(bytes) => [Save(pid, Deliver(bytes))]
    case Pending => if w.now - job.updated <= RESULT_LIMIT then [] else [Save(pid, GiveUp(w.timeout))]
    case GenerationFailed(error) => [Save(pid, GiveUp(error))]
    case Unreachable(error) => if w.now - job.updated <= RESULT_LIMIT then [] else [Save(pid, GiveUp(error))]
  }

  function JobEvents(pid: nat, job: Job, ok: bool, w: World): seq<Event> {
    if w.now - job.updated > RETENTION then [Save(pid, Expire)]
    else match job.state
      case Accepting => if w.now - job.updated > ACCEPT_LIMIT then [Save(pid, Reopen)] else []
      case Submitting => [Save(pid, FailInterrupted(w.interrupted))]
      case Queued => QueuedEvents(pid, job, ok, w)
      case Running => FetchEvents(pid, job, w)
      case _ => []
  }

  /** The pass over one job reads the clock and then acts. */
  function PassEvents(pid: nat, job: Job, ok: bool, w: World): seq<Event> {
    [Clock(w.now)] + JobEvents(pid, job, ok, w)
  }

  ghost predicate Performs(s: System, events: seq<Event>, pid: nat, pass: Pass, id: string) {
    && Enables(s, events)
    && After(s, events).jobs == pass.jobs
    && After(s, events).submitted == s.submitted + (if pass.submitted then [id] else [])
    && OthersWait(s, After(s, events), pid)
  }

  /** The other processes hold what they held. */
  ghost predicate OthersWait(s: System, s': System, pid: nat) {
    forall p :: p != pid && p in s.procs ==> p in s'.procs && s'.procs[p] == s.procs[p]
  }

  lemma OneEvent(s: System, e: Event)
    requires Enabled(s, e)
    ensures Enables(s, [e]) && After(s, [e]) == Next(s, e)
  {
    assert [e][1..] == [];
  }

  lemma FirstEvent(s: System, e: Event, rest: seq<Event>)
    requires Enabled(s, e) && Enables(Next(s, e), rest)
    ensures Enables(s, [e] + rest) && After(s, [e] + rest) == After(Next(s, e), rest)
  {
    assert ([e] + rest)[1..] == rest;
  }

  lemma SubmitPassRuns(s: System, pid: nat, w: World)
    requires pid in s.procs && s.procs[pid].Holds? && s.procs[pid].copy.state == Queued && s.clock == w.now
    ensures var job := s.procs[pid].copy;
      Performs(s, SubmitEvents(pid, SaveTx(s.jobs, job).1, w), pid, SubmitPass(s.jobs, job, w), job.id)
  {
    var job := s.procs[pid].copy;
    var s1 := Next(s, Claim(pid));
    if SaveTx(s.jobs, job).1 {
      var s2 := Next(s1, Submit(pid));
      OneEvent(s2, Confirm(pid, w.submission));
      FirstEvent(s1, Submit(pid), [Confirm(pid, w.submission)]);
      FirstEvent(s, Claim(pid), [Submit(pid)] + [Confirm(pid, w.submission)]);
      assert SubmitEvents(pid, true, w) == [Claim(pid)] + ([Submit(pid)] + [Confirm(pid, w.submission)]);
    } else {
      OneEvent(s, Claim(pid));
    }
  }

  lemma QueuedPassRuns(s: System, pid: nat, w: World)
    requires pid in s.procs && s.procs[pid].Holds? && s.procs[pid].copy.state == Queued && s.clock == w.now
    ensures var job := s.procs[pid].copy;
      Performs(s, QueuedEvents(pid, job, SaveTx(s.jobs, job).1, w), pid, QueuedPass(s.jobs, job, w), job.id)
  {
    var job := s.procs[pid].copy;
    if job.expansion.Some? {
      SubmitPassRuns(s, pid, w);
    } else {
      var e := Save(pid, Expand(w.expansion));
      if SaveTx(s.jobs, job).1 {
        SubmitPassRuns(Next(s, e), pid, w);
        FirstEvent(s, e, SubmitEvents(pid, true, w));
      } else {
        OneEvent(s, e);
      }
    }
  }

  lemma JobPassRuns(s: System, pid: nat, w: World)
    requires pid in s.procs && s.procs[pid].Holds? && s.clock == w.now
    ensures var job := s.procs[pid].copy;
      Performs(s, JobEvents(pid, job, SaveTx(s.jobs, job).1, w), pid, JobPass(s.jobs, job, w), job.id)
  {
    var job := s.procs[pid].copy;
    var events := JobEvents(pid, job, SaveTx(s.jobs, job).1, w);
    if job.state == Queued && w.now - job.updated <= RETENTION {
      QueuedPassRuns(s, pid, w);
    } else if events != [] {
      assert events == [events[0]];
      OneEvent(s, events[0]);
    }
  }

  lemma PassRuns(s: System, pid: nat, w: World)
    requires pid in s.procs && s.procs[pid].Holds?
    ensures var job := s.procs[pid].copy;
      Performs(s, PassEvents(pid, job, SaveTx(s.jobs, job).1, w), pid, JobPass(s.jobs, job, w), job.id)
  {
    var job := s.procs[pid].copy;
    var ticked := Next(s, Clock(w.now));
    JobPassRuns(ticked, pid, w);
    hide JobPass, JobEvents, SaveTx;
    FirstEvent(s, Clock(w.now), JobEvents(pid, job, SaveTx(s.jobs, job).1, w));
  }

  /** Processes that hold the copies of a snapshot. */
  ghost predicate HoldAll(s: System, pids: seq<nat>, snapshot: seq<Job>) {
    && |pids| == |snapshot|
    && (forall i, j :: 0 <= i < j < |pids| ==> pids[i] != pids[j])
    && (forall i :: 0 <= i < |pids| ==> pids[i] in s.procs && s.procs[pids[i]] == Holds(snapshot[i]))
  }

  lemma {:induction false} Joined(s: System, first: seq<Event>, rest: seq<Event>)
    requires Enables(s, first) && Enables(After(s, first), rest)
    ensures Enables(s, first + rest) && After(s, first + rest) == After(After(s, first), rest)
    decreases first
  {
    hide Next, Enabled;
    if first == [] {
      assert first + rest == rest;
    } else {
      Joined(Next(s, first[0]), first[1..], rest);
      assert (first + rest)[1..] == first[1..] + rest;
    }
  }

  lemma StillHold(s: System, s': System, pids: seq<nat>, snapshot: seq<Job>)
    requires pids != [] && HoldAll(s, pids, snapshot) && OthersWait(s, s', pids[0])
    ensures HoldAll(s', pids[1..], snapshot[1..])
  {
  }

  /** The worker's whole pass over a snapshot, run without interference, has the effect and the calls of
      events taken in a row, so everything proved of runs covers it. */
  lemma {:induction false} PassesRun(s: System, pids: seq<nat>, snapshot: seq<Job>, worlds: seq<World>)
    returns (events: seq<Event>)
    requires HoldAll(s, pids, snapshot) && |snapshot| <= |worlds|
    ensures Enables(s, events)
    ensures (After(s, events).jobs, After(s, events).submitted) == Passes(s.jobs, s.submitted, snapshot, worlds)
    decreases pids
  {
    hide Next, Enabled, JobPass, PassEvents, SaveTx;
    if snapshot == [] { return []; }
    var pid, job := pids[0], snapshot[0];
    PassRuns(s, pid, worlds[0]);
    events := PassEvents(pid, job, SaveTx(s.jobs, job).1, worlds[0]);
    var pass, s' := JobPass(s.jobs, job, worlds[0]), After(s, events);
    assert s'.submitted == if pass.submitted then s.submitted + [job.id] else s.submitted;
    if !pass.stop {
      StillHold(s, s', pids, snapshot);
      var rest := PassesRun(s', pids[1..], snapshot[1..], worlds[1..]);
      Joined(s, events, rest);
      events := events + rest;
    }
  }

  lemma {:induction false} UnusedAbove(used: set<nat>) returns (n: nat)
    ensures forall p :: p in used ==> p < n
    decreases used
  {
    n := 0;
    if p :| p in used {
      var m := UnusedAbove(used - {p});
      n := if p < m then m else p + 1;
      forall q | q in used ensures q < n { assert q == p || q in used - {p}; }
    }
  }

  /** A worker reads the jobs it has selected, one process for each. */
  lemma {:induction false} ReadsAll(
    s: System, ids: seq<string>, pids: seq<nat>, first: nat)
    returns (events: seq<Event>)
    requires forall i :: 0 <= i < |ids| ==> ids[i] in s.jobs
    requires |pids| == |ids| && forall i :: 0 <= i < |pids| ==> pids[i] == first + i
    requires forall p :: p in s.procs ==> p < first
    ensures Enables(s, events)
    ensures var s' := After(s, events);
      && s'.jobs == s.jobs && s'.submitted == s.submitted && HoldAll(s', pids, Copies(s.jobs, ids))
      && forall p :: p < first ==> (p in s'.procs <==> p in s.procs) && (p in s.procs ==> s'.procs[p] == s.procs[p])
    decreases ids
  {
    if ids == [] { return []; }
    var e := Read(first, ids[0]);
    var next := Next(s, e);
    var rest := ReadsAll(next, ids[1..], pids[1..], first + 1);
    FirstEvent(s, e, rest);
    events := [e] + rest;
    var s' := After(next, rest);
    forall i | 0 <= i < |pids| ensures pids[i] in s'.procs && s'.procs[pids[i]] == Holds(Copies(s.jobs, ids)[i]) {
      if i > 0 {
        assert pids[i] == pids[1..][i - 1] && Copies(s.jobs, ids)[i] == Copies(next.jobs, ids[1..])[i - 1];
      }
    }
  }

  /** The calls of a pass are appended to those made before. */
  lemma {:induction false} CallsAppend(jobs: Jobs, called: seq<string>, snapshot: seq<Job>, worlds: seq<World>)
    requires |snapshot| <= |worlds|
    ensures var alone := Passes(jobs, [], snapshot, worlds);
      Passes(jobs, called, snapshot, worlds) == (alone.0, called + alone.1)
    decreases snapshot
  {
    hide JobPass;
    if snapshot == [] {
      assert called + [] == called;
    } else {
      var pass := JobPass(jobs, snapshot[0], worlds[0]);
      var own := if pass.submitted then [snapshot[0].id] else [];
      assert called + own == if pass.submitted then called + [snapshot[0].id] else called;
      assert [] + own == own;
      if !pass.stop {
        CallsAppend(pass.jobs, called + own, snapshot[1..], worlds[1..]);
        CallsAppend(pass.jobs, own, snapshot[1..], worlds[1..]);
        var alone := Passes(pass.jobs, [], snapshot[1..], worlds[1..]);
        assert called + (own + alone.1) == (called + own) + alone.1;
      }
    }
  }

  /** From any state the worker's pass, as WorkOne and Tick perform it on the rows they select, is
      reached by events: every theorem about runs holds of the service's own worker. */
  lemma WorkerRuns(s: System, ids: seq<string>, worlds: seq<World>) returns (events: seq<Event>)
    requires (forall i :: 0 <= i < |ids| ==> ids[i] in s.jobs) && |ids| <= |worlds|
    ensures Enables(s, events)
    ensures var (jobs, called) := Passes(s.jobs, [], Copies(s.jobs, ids), worlds);
      After(s, events).jobs == jobs && After(s, events).submitted == s.submitted + called
  {
    hide Next, Enabled, Passes, JobPass;
    var first := UnusedAbove(s.procs.Keys);
    var pids := seq(|ids|, i => first + i);
    var reading := ReadsAll(s, ids, pids, first);
    var work := PassesRun(After(s, reading), pids, Copies(s.jobs, ids), worlds);
    Joined(s, reading, work);
    CallsAppend(s.jobs, s.submitted, Copies(s.jobs, ids), worlds);
    events := reading + work;
  }
}
