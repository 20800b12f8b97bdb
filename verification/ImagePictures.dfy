/** What becomes of a job: what one pass of the worker and each save make of its row, column by column, and
    where over a whole run its picture and its image server id come from. */
module ImagePictures {
  import opened Options
  import opened ImageJobs
  import opened ImageRuns

  // One pass over one job

  /** The row after a pass over its own latest copy. */
  ghost predicate PassOutcome(row: Job, w: World, row': Job, stop: bool, submitted: bool) {
    var idle := w.now - row.updated;
    var next := row.(updated := w.now, revision := row.revision + 1);
    if idle > 604800 then
      && !stop && !submitted
      && row' == next.(
           state := Expired, image := None, media := None, prompt := "", expansion := None, referenceImages := [])
    else match row.state
      case Queued => stop && submitted && SubmitOutcome(row, w, row')
      case Submitting =>
        && stop && !submitted
        && row' == next.(state := Failed, error := Some(w.interrupted), referenceImages := [])
      case Running => !submitted && FetchOutcome(row, w, idle, row', stop)
      case Accepting => !stop && !submitted && row' == if idle > 120 then next.(state := Ready) else row
      case _ => !stop && !submitted && row' == row
  }

  /** An unexpanded job takes one save more. */
  ghost predicate SubmitOutcome(row: Job, w: World, row': Job) {
    var expanded := row.expansion.Some?;
    var next := row.(
      updated := w.now, revision := row.revision + (if expanded then 2 else 3), referenceImages := [],
      expansion := if expanded then row.expansion else w.expansion);
    row' == match w.submission
      case Confirmed(id) => next.(state := Running, promptId := Some(id))
      case Unconfirmed(error) => next.(state := Failed, error := Some(error))
  }

  /** A picture makes the job ready; a job that stays without one fails at once if the server says so, and
      after half an hour otherwise. */
  ghost predicate FetchOutcome(row: Job, w: World, idle: int, row': Job, stop: bool) {
    var next := row.(updated := w.now, revision := row.revision + 1);
    match w.fetch
    case Picture(bytes) => stop && row' == next.(state := Ready, image := Some(bytes))
    case Pending =>
      if idle <= 1800 then !stop && row' == row
      else stop && row' == next.(state := Failed, error := Some(w.timeout))
    case GenerationFailed(error) => stop && row' == next.(state := Failed, error := Some(error))
    case Unreachable(error) =>
      if idle <= 1800 then !stop && row' == row
      else stop && row' == next.(state := Failed, error := Some(error))
  }

  ghost predicate OnlyRow(jobs: Jobs, jobs': Jobs, id: string) {
    jobs'.Keys == jobs.Keys && forall other :: other in jobs && other != id ==> jobs'[other] == jobs[other]
  }

  /** A save replaces exactly a row of its revision, and keeps its slot. */
  lemma SaveMakes(jobs: Jobs, copy: Job)
    requires copy.id in jobs
    ensures var jobs' := SaveTx(jobs, copy).0;
      && OnlyRow(jobs, jobs', copy.id)
      && (copy.revision != jobs[copy.id].revision ==> jobs' == jobs)
      && (copy.revision == jobs[copy.id].revision ==>
            jobs'[copy.id] == copy.(revision := copy.revision + 1, slot := jobs[copy.id].slot))
  {
  }

  /** A pass over the latest copy of a row makes of it what the copy's age, its state and the outside world
      call for; a pass over an outdated copy changes nothing and submits nothing. No other row changes. */
  lemma PassMakes(jobs: Jobs, job: Job, w: World)
    requires job.id in jobs
    ensures var pass := JobPass(jobs, job, w);
      && OnlyRow(jobs, pass.jobs, job.id)
      && (job == jobs[job.id] ==> PassOutcome(job, w, pass.jobs[job.id], pass.stop, pass.submitted))
      && (job.revision != jobs[job.id].revision ==> pass.jobs == jobs && !pass.submitted)
  {
    hide QueuedPass, SubmitOutcome, RunningPass, FetchOutcome, SaveTx, OnlyRow;
    SaveMakes(jobs, Change(Expire, job, w.now));
    SaveMakes(jobs, Change(Reopen, job, w.now));
    SaveMakes(jobs, Change(FailInterrupted(w.interrupted), job, w.now));
    NothingChanges(jobs, job.id);
    if job.state == Queued { QueuedPassMakes(jobs, job, w); }
    if job.state == Running { RunningPassMakes(jobs, job, w); }
  }

  lemma NothingChanges(jobs: Jobs, id: string)
    ensures OnlyRow(jobs, jobs, id)
  {
  }

  lemma RunningPassMakes(jobs: Jobs, job: Job, w: World)
    requires job.id in jobs && job.state == Running
    ensures var pass := RunningPass(jobs, job, w);
      && OnlyRow(jobs, pass.jobs, job.id) && !pass.submitted
      && (job == jobs[job.id] ==> FetchOutcome(job, w, w.now - job.updated, pass.jobs[job.id], pass.stop))
      && (job.revision != jobs[job.id].revision ==> pass.jobs == jobs)
  {
    hide SaveTx, OnlyRow;
    NothingChanges(jobs, job.id);
    match w.fetch
    case Picture(bytes) => SaveMakes(jobs, Change(Deliver(bytes), job, w.now));
    case Pending => SaveMakes(jobs, Change(GiveUp(w.timeout), job, w.now));
    case GenerationFailed(error) => SaveMakes(jobs, Change(GiveUp(error), job, w.now));
    case Unreachable(error) => SaveMakes(jobs, Change(GiveUp(error), job, w.now));
  }

  lemma QueuedPassMakes(jobs: Jobs, job: Job, w: World)
    requires job.id in jobs && job.state == Queued
    ensures var pass := QueuedPass(jobs, job, w);
      && OnlyRow(jobs, pass.jobs, job.id)
      && (job == jobs[job.id] ==> pass.stop && pass.submitted && SubmitOutcome(job, w, pass.jobs[job.id]))
      && (job.revision != jobs[job.id].revision ==> pass.jobs == jobs && !pass.submitted)
  {
    if job.expansion.Some? {
      SubmitPassMakes(jobs, job, w);
    } else {
      var (expanded, ok, copy) := SaveTx(jobs, Change(Expand(w.expansion), job, w.now));
      if ok { SubmitPassMakes(expanded, copy, w); }
      hide SubmitPass;
    }
  }

  lemma SubmitPassMakes(jobs: Jobs, job: Job, w: World)
    requires job.id in jobs
    ensures var pass := SubmitPass(jobs, job, w);
      && OnlyRow(jobs, pass.jobs, job.id)
      && (job.revision != jobs[job.id].revision ==> pass.jobs == jobs && !pass.submitted)
      && (job == jobs[job.id] ==>
            && pass.stop && pass.submitted
            && var next := job.(updated := w.now, revision := job.revision + 2, referenceImages := []);
            pass.jobs[job.id] == match w.submission
              case Confirmed(id) => next.(state := Running, promptId := Some(id))
              case Unconfirmed(error) => next.(state := Failed, error := Some(error)))
  {
  }

  // One save

  /** The row a save leaves, and the state and age in which the row must have been. */
  ghost predicate Replaced(row: Job, e: Event, now: int, row': Job) {
    var next := row.(updated := now, revision := row.revision + 1);
    match e
    case Save(_, Expire) =>
      && now - row.updated > 604800
      && row' == next.(
           state := Expired, image := None, media := None, prompt := "", expansion := None, referenceImages := [])
    case Save(_, Reopen) => row.state == Accepting && now - row.updated > 120 && row' == next.(state := Ready)
    case Save(_, FailInterrupted(error)) =>
      row.state == Submitting && row' == next.(state := Failed, error := Some(error), referenceImages := [])
    case Save(_, Expand(expansion)) =>
      && row.state == Queued && row.expansion.None?
      && row' == row.(revision := row.revision + 1, expansion := expansion)
    case Save(_, Deliver(image)) => row.state == Running && row' == next.(state := Ready, image := Some(image))
    case Save(_, GiveUp(error)) => row.state == Running && row' == next.(state := Failed, error := Some(error))
    case Save(_, DismissPublished) =>
      && row.media.Some?
      && row' == next.(state := Dismissed, image := None, prompt := "", expansion := None, referenceImages := [])
    case Save(_, Accept) => row.state == Ready && row' == next.(state := Accepting)
    case Save(_, Decline) =>
      && (row.state == Ready || row.state == Declined)
      && row' == next.(state := Declined, image := None, prompt := "", expansion := None)
    case Save(_, Dismiss) =>
      && (row.state == Accepted || row.state == Failed || row.state == Dismissed)
      && row' == next.(state := Dismissed, image := None, prompt := "", expansion := None)
    case Claim(_) => row.state == Queued && row' == next.(state := Submitting)
    case Confirm(_, Confirmed(id)) =>
      row.state == Submitting && row' == next.(state := Running, promptId := Some(id), referenceImages := [])
    case Confirm(_, Unconfirmed(error)) =>
      row.state == Submitting && row' == next.(state := Failed, error := Some(error), referenceImages := [])
    case StoreMedia(_, media) =>
      && row.state == Accepting
      && row' == if media.Some? then next.(state := Accepted, media := media) else next.(state := Ready)
    case _ => false
  }

  /** The process of the event holds a copy of the row. */
  ghost predicate SavesRow(s: System, e: Event, id: string) {
    Saves(e) && e.pid in s.procs && s.procs[e.pid].copy.id == id
  }

  /** An event changes a row exactly when it saves a copy that still has the row's revision. */
  lemma SaveReplaces(s: System, e: Event, id: string)
    requires Inv(s) && Enabled(s, e) && id in s.jobs
    ensures id in Next(s, e).jobs
    ensures Next(s, e).jobs[id] != s.jobs[id] <==>
      SavesRow(s, e, id) && s.procs[e.pid].copy.revision == s.jobs[id].revision
    ensures Next(s, e).jobs[id] != s.jobs[id] ==> Replaced(s.jobs[id], e, s.clock, Next(s, e).jobs[id])
  {
    hide SubmissionsOk, SameSlot, SameOwner;
    if Saves(e) { assert ProcessOk(s.jobs, s.procs[e.pid]); }
    if SavesRow(s, e, id) && s.procs[e.pid].copy.revision == s.jobs[id].revision { CurrentReplaces(s, e, id); }
    else { OthersStay(s, e, id); }
    hide ProcessOk, Next, Replaced;
  }

  lemma CurrentReplaces(s: System, e: Event, id: string)
    requires Enabled(s, e) && id in s.jobs && SavesRow(s, e, id) && ProcessOk(s.jobs, s.procs[e.pid])
    requires s.procs[e.pid].copy.revision == s.jobs[id].revision
    ensures id in Next(s, e).jobs
    ensures Next(s, e).jobs[id] != s.jobs[id] && Replaced(s.jobs[id], e, s.clock, Next(s, e).jobs[id])
  {
    hide Replaced;
    var written, row := Written(s, e), s.jobs[id];
    assert Replaced(row, e, s.clock, written.(revision := row.revision + 1, slot := row.slot)) by {
      if e.Save? { ChangeReplaces(s, e, id); } else { WorkReplaces(s, e, id); }
    }
    WrittenKeeps(s, e);
    hide Written, Enabled, ProcessOk, SaveTx;
    SaveMakes(s.jobs, written);
  }

  lemma WorkReplaces(s: System, e: Event, id: string)
    requires Enabled(s, e) && !e.Save? && id in s.jobs && SavesRow(s, e, id) && ProcessOk(s.jobs, s.procs[e.pid])
    requires s.procs[e.pid].copy.revision == s.jobs[id].revision
    ensures var row := s.jobs[id];
      Replaced(row, e, s.clock, Written(s, e).(revision := row.revision + 1, slot := row.slot))
  {
    hide Change, May;
  }

  lemma ChangeReplaces(s: System, e: Event, id: string)
    requires Enabled(s, e) && e.Save? && id in s.jobs && SavesRow(s, e, id) && ProcessOk(s.jobs, s.procs[e.pid])
    requires s.procs[e.pid].copy.revision == s.jobs[id].revision
    ensures var row := s.jobs[id];
      Replaced(row, e, s.clock, Change(e.action, s.procs[e.pid].copy, s.clock).(
        revision := row.revision + 1, slot := row.slot))
  {
  }

  lemma OthersStay(s: System, e: Event, id: string)
    requires Enabled(s, e) && id in s.jobs && s.jobs[id].id == id
    requires Saves(e) ==> ProcessOk(s.jobs, s.procs[e.pid])
    requires !(SavesRow(s, e, id) && s.procs[e.pid].copy.revision == s.jobs[id].revision)
    ensures id in Next(s, e).jobs && Next(s, e).jobs[id] == s.jobs[id]
  {
    if Saves(e) {
      WrittenKeeps(s, e);
      hide Written;
    }
  }

  // Whole runs

  lemma RowAt(states: seq<System>, events: seq<Event>, i: nat, id: string)
    requires IsRun(states, events) && i < |events| && id in states[i].jobs
    ensures id in states[i + 1].jobs
    ensures states[i + 1].jobs[id] != states[i].jobs[id] <==>
      SavesRow(states[i], events[i], id) && states[i].procs[events[i].pid].copy.revision == states[i].jobs[id].revision
    ensures states[i + 1].jobs[id] != states[i].jobs[id] ==>
      Replaced(states[i].jobs[id], events[i], states[i].clock, states[i + 1].jobs[id])
  {
    hide Inv, Next, Enabled, Replaced;
    RunInv(states, events, i);
    assert events[i] == events[i];
    SaveReplaces(states[i], events[i], id);
  }

  /** A row that was not there before is the inserted job, untouched. */
  lemma InsertedAt(states: seq<System>, events: seq<Event>, i: nat, id: string)
    requires IsRun(states, events) && i < |events| && id !in states[i].jobs && id in states[i + 1].jobs
    ensures events[i].Insert? && events[i].job.id == id && Untouched(events[i].job)
    ensures states[i + 1].jobs[id] == events[i].job.(slot := events[i].slot)
  {
    hide Inv, Next;
    RunInv(states, events, i);
    assert events[i] == events[i];
    NewRow(states[i], events[i]);
    hide Insertable;
  }

  predicate Pictured(s: State) { s == Ready || s == Accepting || s == Accepted }

  ghost predicate Shows(s: System, id: string, image: string) {
    id in s.jobs && Pictured(s.jobs[id].state) && s.jobs[id].image == Some(image)
  }

  ghost predicate Delivers(s: System, e: Event, id: string, image: string) {
    && e.Save? && e.action == Deliver(image) && e.pid in s.procs && s.procs[e.pid].copy.id == id
    && id in s.jobs && s.jobs[id].state == Running
  }

  /** What a replacement does to the columns the theorems below follow. */
  lemma ReplacedKeeps(row: Job, e: Event, now: int, row': Job)
    requires Replaced(row, e, now, row')
    ensures row'.owner == row.owner && row'.channel == row.channel && row'.slot == row.slot
      && row'.literal == row.literal && row'.referenceIds == row.referenceIds
    ensures row'.prompt == row.prompt || (Closed(row'.state) && row'.prompt == "")
    ensures Closed(row.state) ==> Closed(row'.state)
  {
  }

  lemma ReplacedPicture(row: Job, e: Event, now: int, row': Job)
    requires Replaced(row, e, now, row')
    ensures Pictured(row'.state) ==>
      || (Pictured(row.state) && row'.image == row.image)
      || (e.Save? && e.action.Deliver? && row.state == Running && row'.image == Some(e.action.image))
    ensures Pictured(row.state) ==> Pictured(row'.state) || Cleared(row')
    ensures Cleared(row) ==> Cleared(row')
  {
  }

  lemma ReplacedRunning(row: Job, e: Event, now: int, row': Job)
    requires Replaced(row, e, now, row') && row'.state == Running
    ensures row.state == Submitting && e.Confirm? && e.answer.Confirmed? && row'.promptId == Some(e.answer.promptId)
  {
  }

  /** A job that is ready, being accepted or accepted has a picture: the one of the delivery that made the
      running job ready, kept ever since. */
  lemma {:induction false} PictureIsDelivered(states: seq<System>, events: seq<Event>, i: nat, id: string)
    returns (j: nat, image: string)
    requires IsRun(states, events) && i < |states| && id in states[i].jobs && Pictured(states[i].jobs[id].state)
    ensures j < i && Delivers(states[j], events[j], id, image)
    ensures forall k :: j < k <= i ==> Shows(states[k], id, image)
  {
    hide Inv, Next, Enabled, Replaced;
    j, image := i - 1, "";
    if id in states[j].jobs {
      RowAt(states, events, j, id);
      if states[j + 1].jobs[id] != states[j].jobs[id] {
        ReplacedPicture(states[j].jobs[id], events[j], states[j].clock, states[j + 1].jobs[id]);
      }
      if Pictured(states[j].jobs[id].state) {
        var upTo := j;
        j, image := PictureIsDelivered(states, events, upTo, id);
        assert Shows(states[upTo], id, image);
      } else {
        image := events[j].action.image;
      }
    } else {
      InsertedAt(states, events, j, id);
      assert false;
    }
  }

  predicate Closed(s: State) { s == Declined || s == Dismissed || s == Expired }

  /** A picture once shown is kept until the job is declined, dismissed or expired; then picture, prompt and
      expansion are gone for good. */
  lemma {:induction false} PictureStays(
    states: seq<System>, events: seq<Event>, i: nat, j: nat, id: string, image: string)
    requires IsRun(states, events) && i <= j < |states| && Shows(states[i], id, image)
    ensures id in states[j].jobs
    ensures Shows(states[j], id, image) || Cleared(states[j].jobs[id])
    decreases j
  {
    hide Inv, Next, Enabled, Replaced;
    if i < j {
      PictureStays(states, events, i, j - 1, id, image);
      RowAt(states, events, j - 1, id);
      var row, row' := states[j - 1].jobs[id], states[j].jobs[id];
      if row' != row { ReplacedPicture(row, events[j - 1], states[j - 1].clock, row'); }
    }
  }

  predicate Cleared(row: Job) {
    Closed(row.state) && row.image.None? && row.prompt == "" && row.expansion.None?
  }

  ghost predicate Answers(s: System, e: Event, id: string, promptId: string) {
    && e.Confirm? && e.answer == Confirmed(promptId) && e.pid in s.procs && s.procs[e.pid].copy.id == id
    && id in s.jobs && s.jobs[id].state == Submitting
  }

  /** A running job has the id with which the image server confirmed its submission. */
  lemma {:induction false} RunningIsConfirmed(states: seq<System>, events: seq<Event>, i: nat, id: string)
    returns (j: nat, promptId: string)
    requires IsRun(states, events) && i < |states| && id in states[i].jobs && states[i].jobs[id].state == Running
    ensures j < i && Answers(states[j], events[j], id, promptId)
    ensures forall k :: j < k <= i ==>
      id in states[k].jobs && states[k].jobs[id].state == Running && states[k].jobs[id].promptId == Some(promptId)
  {
    hide Inv, Next, Enabled, Replaced;
    j, promptId := i - 1, "";
    if id in states[j].jobs {
      RowAt(states, events, j, id);
      if states[j + 1].jobs[id] != states[j].jobs[id] {
        ReplacedRunning(states[j].jobs[id], events[j], states[j].clock, states[j + 1].jobs[id]);
      }
      if states[j].jobs[id].state == Running {
        var upTo := j;
        j, promptId := RunningIsConfirmed(states, events, upTo, id);
        assert states[upTo].jobs[id].promptId == Some(promptId);
      } else {
        promptId := events[j].answer.promptId;
      }
    } else {
      InsertedAt(states, events, j, id);
      assert false;
    }
  }

  /** What was asked for stays on the row, except that closing the job empties the prompt. */
  lemma {:induction false} RequestStays(states: seq<System>, events: seq<Event>, i: nat, j: nat, id: string)
    requires IsRun(states, events) && i <= j < |states| && id in states[i].jobs
    ensures id in states[j].jobs
    ensures var a, b := states[i].jobs[id], states[j].jobs[id];
      && b.owner == a.owner && b.channel == a.channel && b.slot == a.slot && b.literal == a.literal
      && b.referenceIds == a.referenceIds
      && (b.prompt == a.prompt || (Closed(b.state) && b.prompt == ""))
      && (Closed(a.state) ==> Closed(b.state))
    decreases j
  {
    hide Inv, Next, Enabled, Replaced;
    if i < j {
      RequestStays(states, events, i, j - 1, id);
      RowAt(states, events, j - 1, id);
      var row, row' := states[j - 1].jobs[id], states[j].jobs[id];
      if row' != row { ReplacedKeeps(row, events[j - 1], states[j - 1].clock, row'); }
    }
  }

  // What is taken in and what is picked up

  /** Over every run a new job is stored exactly when its id is new, its owner has nothing to review and its slot
      is free. */
  lemma InsertStores(states: seq<System>, events: seq<Event>, i: nat)
    requires IsRun(states, events) && i < |events| && events[i].Insert?
    ensures var jobs, e := states[i].jobs, events[i];
      var fits := e.job.id !in jobs && forall id :: id in jobs ==>
        && (jobs[id].owner == e.job.owner ==> jobs[id].state !in {Queued, Submitting, Running, Ready, Accepting})
        && (jobs[id].slot == e.slot ==> jobs[id].state !in {Queued, Submitting, Running});
      states[i + 1].jobs == if fits then jobs[e.job.id := e.job.(slot := e.slot)] else jobs
  {
    hide SubmissionsOk, ProcessOk, SameSlot, SameOwner;
    RunInv(states, events, i);
    var jobs, e := states[i].jobs, events[i];
    assert e.job.id in jobs ==> Conflicts(jobs[e.job.id], e.job, e.slot);
  }

  /** The worker's business: everything under way, and whatever is not closed after seven days. */
  predicate NeedsWork(job: Job, now: int) {
    || job.state in {Queued, Submitting, Running, Accepting}
    || (!Closed(job.state) && now - job.updated > 604800)
  }

  /** The worker takes up to eight jobs that need work, each once, longest untouched first, and leaves such a job
      for later only behind eight others. */
  lemma WorkIsSelected(jobs: Jobs, now: int, ids: seq<string>)
    requires Selects(jobs, Work(now), ids)
    ensures |ids| <= 8 && forall i, j :: 0 <= i < j < |ids| ==> ids[i] != ids[j]
    ensures forall i :: 0 <= i < |ids| ==> ids[i] in jobs && NeedsWork(jobs[ids[i]], now)
    ensures forall i, j :: 0 <= i < j < |ids| ==> jobs[ids[i]].updated <= jobs[ids[j]].updated
    ensures forall id :: id in jobs && id !in ids && NeedsWork(jobs[id], now) ==>
      |ids| == 8 && forall i :: 0 <= i < |ids| ==> jobs[ids[i]].updated <= jobs[id].updated
  {
  }

  /** No job that a pass would change is missing from what the worker asks for, unless it is closed. */
  lemma PassNeedsWork(jobs: Jobs, id: string, w: World)
    requires id in jobs && jobs[id].id == id && !Closed(jobs[id].state)
    requires JobPass(jobs, jobs[id], w).jobs != jobs
    ensures NeedsWork(jobs[id], w.now)
  {
  }

  /** An owner sees up to twenty of their own open jobs, each once, latest first, and misses one only behind
      twenty others. */
  lemma ListingIsSelected(jobs: Jobs, owner: string, ids: seq<string>)
    requires Selects(jobs, Listing(owner), ids)
    ensures |ids| <= 20 && forall i, j :: 0 <= i < j < |ids| ==> ids[i] != ids[j]
    ensures forall i :: 0 <= i < |ids| ==> ids[i] in jobs && jobs[ids[i]].owner == owner && !Closed(jobs[ids[i]].state)
    ensures forall i, j :: 0 <= i < j < |ids| ==> jobs[ids[i]].updated >= jobs[ids[j]].updated
    ensures forall id :: id in jobs && id !in ids && jobs[id].owner == owner && !Closed(jobs[id].state) ==>
      |ids| == 20 && forall i :: 0 <= i < |ids| ==> jobs[ids[i]].updated >= jobs[id].updated
  {
  }
}
