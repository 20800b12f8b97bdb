/** What the native session protocol promises over whole runs. */
module NativeRuns {
  import opened Options
  import opened NativeTypes
  import opened NativeSpec
  import opened NativeSteps
  import opened NativeInvariant

  /** states[i] --events[i]--> states[i + 1], answered with replies[i]. */
  datatype Run = Run(states: seq<System>, events: seq<Event>, replies: seq<Reply>)

  ghost predicate StepAt(run: Run, i: nat)
    requires i < |run.events| && |run.states| == |run.events| + 1 && |run.replies| == |run.events|
  {
    Step(run.states[i], run.events[i], run.states[i + 1], run.replies[i])
  }

  ghost predicate IsRun(run: Run) {
    && |run.states| == |run.events| + 1 && |run.replies| == |run.events|
    && run.states[0] == Init
    && forall i :: 0 <= i < |run.events| ==> StepAt(run, i)
  }

  /** The runs of the transactions themselves. */
  ghost predicate Executes(run: Run) {
    && |run.states| == |run.events| + 1 && |run.replies| == |run.events|
    && run.states[0] == Init
    && forall i {:trigger run.events[i]} :: 0 <= i < |run.events| ==>
      && Enabled(run.states[i], run.events[i])
      && run.states[i + 1] == Next(run.states[i], run.events[i])
      && run.replies[i] == ReplyOf(run.states[i], run.events[i])
  }

  lemma ExecutionIsRun(run: Run)
    requires Executes(run)
    ensures IsRun(run)
  {
    hide Step, Next, ReplyOf;
    forall i | 0 <= i < |run.events| ensures StepAt(run, i) { EveryEventSteps(run.states[i], run.events[i]); }
  }

  lemma {:induction false} RunInv(run: Run, i: nat)
    requires IsRun(run) && i < |run.states|
    ensures Inv(run.states[i])
  {
    hide Inv, Step;
    if i == 0 { InitInv(); }
    else {
      RunInv(run, i - 1);
      assert StepAt(run, i - 1);
      InvKept(run.states[i - 1], run.events[i - 1], run.states[i], run.replies[i - 1]);
    }
  }

  /** A property that every event keeps holds from any state of a run onwards. */
  lemma {:induction false} Persists(run: Run, i: nat, j: nat, p: System -> bool)
    requires IsRun(run) && i <= j < |run.states| && p(run.states[i])
    requires forall s, e, s', r :: Inv(s) && Step(s, e, s', r) && p(s) ==> p(s')
    ensures p(run.states[j])
    decreases j - i
  {
    hide Inv, Step;
    if i < j {
      RunInv(run, i);
      assert StepAt(run, i);
      assert p(run.states[i + 1]);
      Persists(run, i + 1, j, p);
    }
  }

  // Dead families

  /** Ended, or older than its user's epoch. */
  ghost predicate Dead(s: System, f: string) {
    && f in s.db.families
    && var row := s.db.families[f];
    row.phase == Revoked || row.phase == Reauth || row.epoch != EpochOf(s.db, row.user).number
  }

  /** The reply hands out or accepts a session of family f. */
  ghost predicate Uses(e: Event, r: Reply, f: string) {
    match r
    case Waiting(RefreshCall(_, g, _, _, _)) => g == f
    case Waiting(RecheckCall(ref, _)) => ref.family == f
    case Admitted(_) => e.FinishRecheck? && e.call.RecheckCall? && e.call.reference.family == f
    case Exchanged(result) => result.session.family == f
    case Granted(grant) => grant.family == f
    case _ => false
  }

  lemma EpochIsReached(s: System, f: string)
    requires Inv(s) && f in s.db.families
    ensures s.db.families[f].epoch <= EpochOf(s.db, s.db.families[f].user).number
  {
    hide SecretOf, Drawn, EpochOf, AttemptsOk, LinksOk, RefreshCallsOk, CallbackCallsOk, ReceiptOk;
    assert FamilyOk(s, f);
  }

  lemma DeadStays(s: System, e: Event, s': System, r: Reply, f: string)
    requires Inv(s) && Step(s, e, s', r) && Dead(s, f)
    ensures Dead(s', f)
  {
    hide Inv, AttemptTable, ReceiptTable, ReplyFacts, ReplyKind, FamilyTable, EpochTable, Issues, Enabled;
    hide EpochOf, Cancels, RotatedRow, NewGrant;
    EpochIsReached(s, f);
    EpochsRise(s.db, s.clock, e, s'.db, s.db.families[f].user);
    FamilyFate(s.db, s.clock, e, s'.db, f);
  }

  lemma RefreshGrantFamily(s: System, e: Event)
    requires RefreshCallsOk(s) && Enabled(s, e) && e.FinishRefresh?
    ensures e.call.familySecret.grant.family == e.call.family
  {
    assert RefreshCallOk(s, e.call);
  }

  lemma HandoffFamily(s: System, id: string)
    requires LinksOk(s) && AttemptsOk(s) && id in s.db.attempts && s.db.attempts[id].phase == Redeemed
    ensures OpenHandoff(id, s.db.attempts[id].receipt).Some?
    ensures OpenHandoff(id, s.db.attempts[id].receipt).value.session.family == s.db.attempts[id].family
  {
    assert LinkOk(s, id) && AttemptOk(s, id);
  }

  lemma DeadServesNothing(s: System, e: Event, s': System, r: Reply, f: string)
    requires Inv(s) && Step(s, e, s', r) && Dead(s, f)
    ensures !Uses(e, r, f)
  {
    hide AttemptTable, ReceiptTable, FamilyTable, EpochTable, Proof, SecretOf, FamiliesOk, AttemptsOk, LinksOk;
    hide RefreshCallsOk, CallbackCallsOk, Enabled, AttemptPut, FamilyPut;
    if r.Exchanged? && e.Exchange? && e.redeem.transaction in s.db.attempts
      && s.db.attempts[e.redeem.transaction].phase == Redeemed {
      HandoffFamily(s, e.redeem.transaction);
    }
    if e.FinishRefresh? { RefreshGrantFamily(s, e); }
    if e.BeginRefresh? && KeyOf(e) in s.db.receipts { assert ReceiptOk(s, KeyOf(e)); }
  }

  /** Once dead, a family stays dead and no later reply uses it. */
  lemma DeadForever(run: Run, i: nat, j: nat, f: string)
    requires IsRun(run) && i <= j < |run.states| && Dead(run.states[i], f)
    ensures Dead(run.states[j], f)
    ensures j < |run.events| ==> !Uses(run.events[j], run.replies[j], f)
  {
    hide Inv, Step, Dead, Uses;
    forall s, e, s', r | Inv(s) && Step(s, e, s', r) && Dead(s, f) ensures Dead(s', f) { DeadStays(s, e, s', r, f); }
    Persists(run, i, j, s => Dead(s, f));
    if j < |run.events| {
      RunInv(run, j);
      assert StepAt(run, j);
      DeadServesNothing(run.states[j], run.events[j], run.states[j + 1], run.replies[j], f);
    }
  }

  /** An accepted revocation is final: from then on the family is revoked, and no in-flight
      recheck, refresh or receipt replay uses it. */
  lemma RevocationIsFinal(run: Run, i: nat, j: nat, f: string)
    requires IsRun(run) && i < j < |run.states|
    requires run.events[i].RevokeSession? && run.replies[i].Done?
    requires f in run.states[i].db.families && run.states[i].db.families[f].revokeHash == Hash(run.events[i].token)
    ensures f in run.states[j].db.families && run.states[j].db.families[f].phase == Revoked
    ensures j < |run.events| ==> !Uses(run.events[j], run.replies[j], f)
  {
    hide Inv, Uses;
    RunInv(run, i);
    assert StepAt(run, i);
    RevokeHits(run.states[i], run.events[i], run.states[i + 1], run.replies[i], f);
    RevokedForever(run, i + 1, j, f);
    DeadForever(run, i + 1, j, f);
  }

  lemma RevokeHits(s: System, e: Event, s': System, r: Reply, f: string)
    requires Inv(s) && Step(s, e, s', r) && e.RevokeSession? && r.Done?
    requires f in s.db.families && s.db.families[f].revokeHash == Hash(e.token)
    ensures f in s'.db.families && s'.db.families[f].phase == Revoked
  {
    hide AttemptTable, ReceiptTable, FamilyTable, EpochTable, Proof, SecretOf, FamilyOk, AttemptsOk, LinksOk;
    hide RefreshCallsOk, CallbackCallsOk, Enabled;
    assert FamilyOk(s, f);
    var g :| FamilyPut(s.db, s.clock, e, g, s'.db) && Ends(s.db, e, g, s.db.families[g], s'.db.families[g]);
    assert FamilyOk(s, g);
  }

  lemma RevokedForever(run: Run, i: nat, j: nat, f: string)
    requires IsRun(run) && i <= j < |run.states|
    requires f in run.states[i].db.families && run.states[i].db.families[f].phase == Revoked
    ensures f in run.states[j].db.families && run.states[j].db.families[f].phase == Revoked
  {
    hide Inv, Step;
    var p := (s: System) => f in s.db.families && s.db.families[f].phase == Revoked;
    forall s, e, s', r | Inv(s) && Step(s, e, s', r) && p(s) ensures p(s') {
      StepTables(s, e, s', r);
      RevokedStays(s.db, s.clock, e, s'.db, f);
    }
    Persists(run, i, j, p);
  }

  // Cancelled logins

  ghost predicate CancelledIn(s: System, id: string) {
    id in s.db.attempts && s.db.attempts[id].phase == Cancelled
  }

  /** The reply carries login id a step further. */
  ghost predicate Advances(e: Event, r: Reply, id: string) {
    match r
    case SentToProvider(_, _) => e.Browser? && e.id == id
    case Waiting(CallbackCall(i, _, _)) => i == id
    case AskConfirmation(i, _, _) => i == id
    case HandedOff(_, i, _) => i == id
    case Exchanged(_) => e.Exchange? && e.redeem.transaction == id
    case _ => false
  }

  lemma CancelledStays(s: System, e: Event, s': System, r: Reply, id: string)
    requires Step(s, e, s', r) && CancelledIn(s, id)
    ensures CancelledIn(s', id) && s'.db.attempts[id].family == s.db.attempts[id].family
  {
    hide AttemptTable, ReceiptTable, FamilyTable, EpochTable, ReplyFacts, ReplyKind, Proof, Enabled, OpenAttempt;
    AttemptFate(s.db, s.clock, e, s'.db, id);
  }

  lemma CancelledAdvancesNothing(s: System, e: Event, s': System, r: Reply, id: string)
    requires Step(s, e, s', r) && CancelledIn(s, id)
    ensures !Advances(e, r, id)
  {
    hide AttemptTable, ReceiptTable, FamilyTable, EpochTable, ReplyKind, Proof, Enabled, OpenAttempt, Passes;
    hide Rotates, FamilyPut, SecretOf;
  }

  /** An accepted cancellation is final: the login stays cancelled and takes no further step, and the
      family it had issued, if any, stays revoked and serves nothing. */
  lemma CancellationIsFinal(run: Run, i: nat, j: nat)
    requires IsRun(run) && i < j < |run.states|
    requires run.events[i].CancelLogin? && run.replies[i].Done?
    ensures var id := run.events[i].cancel.transaction;
      && CancelledIn(run.states[j], id)
      && (j < |run.events| ==> !Advances(run.events[j], run.replies[j], id))
      && var f := run.states[j].db.attempts[id].family;
      && id in run.states[i].db.attempts && f == run.states[i].db.attempts[id].family
      && (f != "" ==>
            && f in run.states[j].db.families && run.states[j].db.families[f].phase == Revoked
            && (j < |run.events| ==> !Uses(run.events[j], run.replies[j], f)))
  {
    hide Inv, Uses, Advances, Step;
    var id := run.events[i].cancel.transaction;
    assert StepAt(run, i);
    CancelTakes(run.states[i], run.events[i], run.states[i + 1], run.replies[i]);
    var f := run.states[i].db.attempts[id].family;
    var p := (s: System) => CancelledIn(s, id) && s.db.attempts[id].family == f;
    forall s, e, s', r | Inv(s) && Step(s, e, s', r) && p(s) ensures p(s') { CancelledStays(s, e, s', r, id); }
    Persists(run, i + 1, j, p);
    RunInv(run, j);
    CancelledFamily(run.states[j], id);
    if j < |run.events| {
      assert StepAt(run, j);
      CancelledAdvancesNothing(run.states[j], run.events[j], run.states[j + 1], run.replies[j], id);
    }
    if f != "" { DeadForever(run, j, j, f); }
  }

  lemma CancelledFamily(s: System, id: string)
    requires Inv(s) && CancelledIn(s, id)
    ensures var f := s.db.attempts[id].family;
            f != "" ==> f in s.db.families && s.db.families[f].phase == Revoked && Dead(s, f)
  {
    hide FamiliesOk, AttemptsOk, RefreshCallsOk, CallbackCallsOk, ReceiptOk;
    assert LinkOk(s, id);
  }

  lemma CancelTakes(s: System, e: Event, s': System, r: Reply)
    requires Step(s, e, s', r) && e.CancelLogin? && r.Done?
    ensures e.cancel.transaction in s.db.attempts && CancelledIn(s', e.cancel.transaction)
    ensures s'.db.attempts[e.cancel.transaction].family == s.db.attempts[e.cancel.transaction].family
  {
    hide AttemptTable, ReceiptTable, FamilyTable, EpochTable, ReplyKind, Proof, Enabled;
  }

  // Renewals

  /** Generation g of family f has been put on lease, or is past. */
  ghost predicate LeasedOut(s: System, f: string, g: nat) {
    && f in s.db.families
    && (s.db.families[f].generation > g || (s.db.families[f].generation == g && s.db.families[f].phase != Active))
  }

  ghost predicate Starts(r: Reply, f: string, g: nat) {
    r.Waiting? && r.call.RefreshCall? && r.call.family == f && r.call.key.generation == g
  }

  lemma LeasedOutStays(s: System, e: Event, s': System, r: Reply, f: string, g: nat)
    requires Inv(s) && Step(s, e, s', r) && LeasedOut(s, f, g)
    ensures LeasedOut(s', f, g)
  {
    hide AttemptTable, ReceiptTable, FamilyTable, EpochTable, ReplyFacts, ReplyKind, Proof, FamiliesOk;
    hide AttemptsOk, LinksOk, CallbackCallsOk, SecretOf, Issues;
    FamilyFate(s.db, s.clock, e, s'.db, f);
    if e.FinishRefresh? { CallGeneration(s, e); }
  }

  lemma StartLeases(s: System, e: Event, s': System, r: Reply, f: string, g: nat)
    requires Step(s, e, s', r) && Starts(r, f, g)
    ensures !LeasedOut(s, f, g) && LeasedOut(s', f, g)
  {
    hide AttemptTable, ReceiptTable, FamilyTable, EpochTable, ReplyKind, Proof, SecretOf, Enabled;
  }

  /** At most one upstream renewal is ever started for a family and generation. */
  lemma OneRenewalPerGeneration(run: Run, i: nat, j: nat, f: string, g: nat)
    requires IsRun(run) && i < j < |run.events|
    requires Starts(run.replies[i], f, g)
    ensures !Starts(run.replies[j], f, g)
  {
    hide Inv, Step, Starts, LeasedOut;
    assert StepAt(run, i) && StepAt(run, j);
    StartLeases(run.states[i], run.events[i], run.states[i + 1], run.replies[i], f, g);
    forall s, e, s', r | Inv(s) && Step(s, e, s', r) && LeasedOut(s, f, g) ensures LeasedOut(s', f, g) {
      LeasedOutStays(s, e, s', r, f, g);
    }
    Persists(run, i + 1, j, s => LeasedOut(s, f, g));
    if Starts(run.replies[j], f, g) {
      StartLeases(run.states[j], run.events[j], run.states[j + 1], run.replies[j], f, g);
    }
  }

  /** No call can bring the family back: it has ended, its lease is over, or nobody holds its lease. */
  ghost predicate Lost(s: System, f: string) {
    && f in s.db.families
    && var row := s.db.families[f];
    && row.phase != Active
    && (row.phase == Refreshing ==> row.leaseExpires <= s.clock || !LeaseHeld(s, f, row.lease))
  }

  ghost predicate LeaseHeld(s: System, f: string, lease: string) {
    exists c :: c in s.calls && c.RefreshCall? && c.family == f && c.lease == lease
  }

  lemma LostStays(s: System, e: Event, s': System, r: Reply, f: string)
    requires Inv(s) && Step(s, e, s', r) && Lost(s, f)
    ensures Lost(s', f)
  {
    hide AttemptTable, ReceiptTable, FamilyTable, EpochTable, ReplyKind, Proof, FamiliesOk, AttemptsOk, LinksOk;
    hide CallbackCallsOk, RefreshCallsOk, SecretOf, Issues, EpochOf;
    hide Cancels, RotatedRow, NewGrant;
    FamilyFate(s.db, s.clock, e, s'.db, f);
  }

  /** After a crash, a refused or unusable answer, or a reply past the lease, the family on that lease is lost. */
  lemma FailedRenewalIsLost(s: System, e: Event, s': System, r: Reply, call: Call)
    requires Inv(s) && Step(s, e, s', r) && call in s.calls && call.RefreshCall?
    requires e == Crash(call) || (e.FinishRefresh? && e.call == call && r.Rejected?)
    requires s.db.families[call.family].phase == Refreshing && s.db.families[call.family].lease == call.lease
    ensures Lost(s', call.family)
  {
    hide AttemptTable, ReceiptTable, FamilyTable, EpochTable, ReplyFacts, Proof, FamiliesOk, AttemptsOk;
    hide LinksOk, CallbackCallsOk, SecretOf, Issues, EpochOf, Enabled;
    FamilyFate(s.db, s.clock, e, s'.db, call.family);
    if Rotates(s.db, s.clock, e, call.family, s'.db) { RotationIsGranted(s, e, s', r); }
  }

  lemma RotationIsGranted(s: System, e: Event, s': System, r: Reply)
    requires Step(s, e, s', r) && e.FinishRefresh? && Rotates(s.db, s.clock, e, e.call.family, s'.db)
    ensures r.Granted?
  {
    hide AttemptTable, ReceiptTable, FamilyTable, EpochTable, Proof;
  }

  /** A lost family never becomes active again, whatever replies still arrive. */
  lemma LostForever(run: Run, i: nat, j: nat, f: string)
    requires IsRun(run) && i <= j < |run.states| && Lost(run.states[i], f)
    ensures Lost(run.states[j], f) && run.states[j].db.families[f].phase != Active
  {
    hide Inv, Step;
    forall s, e, s', r | Inv(s) && Step(s, e, s', r) && Lost(s, f) ensures Lost(s', f) { LostStays(s, e, s', r, f); }
    Persists(run, i, j, s => Lost(s, f));
  }

  /** The family of a waiting renewal is on that renewal's lease, or has ended. */
  ghost predicate Waits(s: System, call: Call)
    requires call.RefreshCall?
  {
    && call.family in s.db.families
    && var row := s.db.families[call.family];
    row.phase != Active && (row.phase == Refreshing ==> row.lease == call.lease)
  }

  ghost predicate AllWait(s: System) { forall c :: c in s.calls && c.RefreshCall? ==> Waits(s, c) }

  lemma WaitStays(s: System, e: Event, s': System, r: Reply, call: Call)
    requires Inv(s) && Step(s, e, s', r) && call in s.calls && call in s'.calls && call.RefreshCall? && Waits(s, call)
    ensures Waits(s', call)
  {
    hide AttemptTable, ReceiptTable, FamilyTable, EpochTable, ReplyFacts, Proof, FamiliesOk, AttemptsOk, LinksOk;
    hide CallbackCallsOk, RefreshCallOk, SecretOf, Issues, EpochOf, Cancels, RotatedRow, NewGrant;
    FamilyFate(s.db, s.clock, e, s'.db, call.family);
  }

  lemma NewWait(s: System, e: Event, s': System, r: Reply)
    requires Step(s, e, s', r) && r.Waiting? && r.call.RefreshCall?
    ensures Waits(s', r.call)
  {
    hide AttemptTable, ReceiptTable, FamilyTable, EpochTable, ReplyKind, Proof, SecretOf, Enabled, Passes;
  }

  lemma AllWaitStays(s: System, e: Event, s': System, r: Reply)
    requires Inv(s) && Step(s, e, s', r) && AllWait(s)
    ensures AllWait(s')
  {
    hide Inv, TableStep, Enabled, Waits;
    forall c | c in s'.calls && c.RefreshCall? ensures Waits(s', c) {
      if c in s.calls { WaitStays(s, e, s', r, c); } else { NewWait(s, e, s', r); }
    }
  }

  lemma WaitingInRun(run: Run, i: nat, call: Call)
    requires IsRun(run) && i < |run.states| && call in run.states[i].calls && call.RefreshCall?
    ensures Waits(run.states[i], call)
  {
    hide Inv, Step, Waits;
    forall s, e, s', r | Inv(s) && Step(s, e, s', r) && AllWait(s) ensures AllWait(s') { AllWaitStays(s, e, s', r); }
    Persists(run, 0, i, s => AllWait(s));
  }

  /** After a crash, a refused or unusable answer, or a reply past the lease, the family is never active again. */
  lemma FailedRenewalIsFinal(run: Run, i: nat, j: nat, call: Call)
    requires IsRun(run) && i < j < |run.states| && i < |run.events| && call in run.states[i].calls && call.RefreshCall?
    requires run.events[i] == Crash(call)
          || (run.events[i].FinishRefresh? && run.events[i].call == call && run.replies[i].Rejected?)
    ensures call.family in run.states[j].db.families && run.states[j].db.families[call.family].phase != Active
  {
    hide Inv, Step;
    RunInv(run, i);
    assert StepAt(run, i);
    WaitingInRun(run, i, call);
    if run.states[i].db.families[call.family].phase == Refreshing {
      FailedRenewalIsLost(run.states[i], run.events[i], run.states[i + 1], run.replies[i], call);
      LostForever(run, i + 1, j, call.family);
    } else {
      LostForever(run, i, j, call.family);
    }
  }

  // Refresh tokens

  /** Reply r grants a successor for the refresh token and operation of key. */
  ghost predicate Answers(e: Event, r: Reply, key: ReceiptKey, grant: Grant) {
    && r == Granted(grant)
    && ((e.BeginRefresh? && KeyOf(e) == key) || (e.FinishRefresh? && e.call.RefreshCall? && e.call.key == key))
  }

  ghost predicate Filed(s: System, key: ReceiptKey, grant: Grant) {
    key in s.db.receipts && OpenReceipt(key, s.db.receipts[key].result) == Some(grant)
  }

  lemma FiledStays(s: System, e: Event, s': System, r: Reply, key: ReceiptKey, grant: Grant)
    requires Step(s, e, s', r) && Filed(s, key, grant)
    ensures Filed(s', key, grant)
  {
    hide AttemptTable, FamilyTable, EpochTable, ReplyFacts, ReplyKind, Proof, Enabled;
  }

  lemma AnswerFiles(s: System, e: Event, s': System, r: Reply, key: ReceiptKey, grant: Grant)
    requires Step(s, e, s', r) && Answers(e, r, key, grant)
    ensures Filed(s', key, grant)
  {
    hide AttemptTable, FamilyTable, EpochTable, ReceiptTable, ReplyKind, Proof, Enabled;
  }

  lemma TokenSpent(s: System, e: Event, s': System, r: Reply, key: ReceiptKey, grant: Grant)
    requires Inv(s) && Step(s, e, s', r) && Filed(s, key, grant)
    ensures forall k, g :: Answers(e, r, k, g) && k.oldHash == key.oldHash ==>
      k == key && g == grant && e.BeginRefresh? && s'.db == s.db
    ensures e.BeginRefresh? && Hash(e.token) == key.oldHash && KeyOf(e) != key ==> r.Rejected?
  {
    hide AttemptTable, FamilyTable, EpochTable, ReceiptTable, Proof, AttemptsOk, LinksOk, CallbackCallsOk;
    hide SecretOf, FamilyPut, FamiliesOk, OpenReceipt, EpochOf;
    assert ReceiptOk(s, key);
    if e.FinishRefresh? && r.Granted? { assert RefreshCallOk(s, e.call); }
    if e.BeginRefresh? && KeyOf(e) in s.db.receipts { assert ReceiptOk(s, KeyOf(e)); }
  }

  /** A refresh token buys one successor: every later answer for it carries the same operation,
      generation and grant and comes from the receipt, and any other operation on it is refused. */
  lemma RefreshTokenSpentOnce(run: Run, i: nat, j: nat, key: ReceiptKey, grant: Grant)
    requires IsRun(run) && i < j < |run.events| && Answers(run.events[i], run.replies[i], key, grant)
    ensures forall k, g :: Answers(run.events[j], run.replies[j], k, g) && k.oldHash == key.oldHash ==>
      k == key && g == grant && run.events[j].BeginRefresh? && run.states[j + 1].db == run.states[j].db
    ensures run.events[j].BeginRefresh? && Hash(run.events[j].token) == key.oldHash && KeyOf(run.events[j]) != key ==>
      run.replies[j].Rejected?
  {
    hide Inv, Step, Answers, Filed;
    assert StepAt(run, i) && StepAt(run, j);
    AnswerFiles(run.states[i], run.events[i], run.states[i + 1], run.replies[i], key, grant);
    forall s, e, s', r | Inv(s) && Step(s, e, s', r) && Filed(s, key, grant) ensures Filed(s', key, grant) {
      FiledStays(s, e, s', r, key, grant);
    }
    Persists(run, i + 1, j, s => Filed(s, key, grant));
    RunInv(run, j);
    TokenSpent(run.states[j], run.events[j], run.states[j + 1], run.replies[j], key, grant);
  }

  /** The successor's generation is exactly one higher, within 64 bits. */
  lemma GenerationRisesByOne(run: Run, i: nat, key: ReceiptKey, grant: Grant)
    requires IsRun(run) && i < |run.events| && Answers(run.events[i], run.replies[i], key, grant)
    ensures grant.generation == key.generation + 1 <= U64_MAX
    ensures grant.family in run.states[i + 1].db.families
    ensures grant.generation <= run.states[i + 1].db.families[grant.family].generation
  {
    hide Inv, Step, Answers;
    assert StepAt(run, i);
    AnswerFiles(run.states[i], run.events[i], run.states[i + 1], run.replies[i], key, grant);
    RunInv(run, i + 1);
    ReceiptGeneration(run.states[i + 1], key, grant);
  }

  lemma ReceiptGeneration(s: System, key: ReceiptKey, grant: Grant)
    requires Inv(s) && Filed(s, key, grant)
    ensures grant.family in s.db.families
    ensures grant.generation == key.generation + 1 <= s.db.families[grant.family].generation <= U64_MAX
  {
    assert ReceiptOk(s, key) && FamilyOk(s, grant.family);
  }

  // Live families

  /** The defensive comparison never refuses a live family of a reachable state: its box opens
      to a grant that agrees with every column. */
  lemma LiveFamilyOpens(run: Run, i: nat, f: string)
    requires IsRun(run) && i < |run.states| && f in run.states[i].db.families && Live(run.states[i].db.families[f])
    ensures var row := run.states[i].db.families[f];
      && SecretOf(f, row).Some? && SecretOf(f, row) == OpenFamily(f, row.secret)
      && var grant := SecretOf(f, row).value.grant;
      && grant.user == row.user && grant.family == f && grant.epoch == row.epoch && grant.generation == row.generation
      && grant.expiresAt == row.expiresAt && Hash(grant.access) == row.accessHash
      && Hash(grant.refresh) == row.refreshHash && Hash(grant.revoke) == row.revokeHash
  {
    RunInv(run, i);
    assert FamilyOk(run.states[i], f);
  }

  // Redemption

  ghost predicate RedeemedTo(s: System, id: string, result: ExchangeResult) {
    && id in s.db.attempts
    && (s.db.attempts[id].phase == Redeemed || s.db.attempts[id].phase == Cancelled)
    && OpenHandoff(id, s.db.attempts[id].receipt) == Some(result)
  }

  lemma RedeemedStays(s: System, e: Event, s': System, r: Reply, id: string, result: ExchangeResult)
    requires Step(s, e, s', r) && RedeemedTo(s, id, result)
    ensures RedeemedTo(s', id, result)
    ensures !(Issues(s.db, s.clock, e, s'.db) && e.redeem.transaction == id)
  {
    hide AttemptTable, ReceiptTable, FamilyTable, EpochTable, ReplyFacts, ReplyKind, Proof, Enabled, OpenAttempt;
    AttemptFate(s.db, s.clock, e, s'.db, id);
  }

  lemma ExchangeRedeems(s: System, e: Event, s': System, r: Reply)
    requires Step(s, e, s', r) && e.Exchange? && r.Exchanged?
    ensures RedeemedTo(s', e.redeem.transaction, r.result)
    ensures e.redeem.transaction in s.db.attempts
    ensures !Issues(s.db, s.clock, e, s'.db) ==> RedeemedTo(s, e.redeem.transaction, r.result)
  {
    hide AttemptTable, ReceiptTable, FamilyTable, EpochTable, ReplyKind, Proof, Enabled, OpenAttempt, Passes;
  }

  ghost predicate RedeemedBy(s: System, id: string, redemption: string) {
    && id in s.db.attempts
    && (s.db.attempts[id].phase == Redeemed || s.db.attempts[id].phase == Cancelled)
    && s.db.attempts[id].redemption == redemption
  }

  lemma RedeemedByStays(s: System, e: Event, s': System, r: Reply, id: string, redemption: string)
    requires Step(s, e, s', r) && RedeemedBy(s, id, redemption)
    ensures RedeemedBy(s', id, redemption)
  {
    hide AttemptTable, ReceiptTable, FamilyTable, EpochTable, ReplyFacts, ReplyKind, Proof, Enabled, OpenAttempt;
    hide EpochOf, EpochUntouched;
    AttemptFate(s.db, s.clock, e, s'.db, id);
  }

  /** An answered exchange leaves its redemption id with the attempt. */
  lemma ExchangeLeavesRedemption(s: System, e: Event, s': System, r: Reply)
    requires Step(s, e, s', r) && e.Exchange? && r.Exchanged?
    ensures RedeemedBy(s', e.redeem.transaction, e.redeem.redemption)
  {
    hide AttemptTable, ReceiptTable, FamilyTable, EpochTable, ReplyKind, Proof, Enabled, OpenAttempt, Passes;
    hide EpochOf, GrantedRow, FirstGrant;
  }

  /** All answered exchanges of one attempt carry the same redemption id. */
  lemma OneRedemptionPerAttempt(run: Run, i: nat, j: nat)
    requires IsRun(run) && i < j < |run.events| && run.events[i].Exchange? && run.replies[i].Exchanged?
    requires run.events[j].Exchange? && run.replies[j].Exchanged?
    requires run.events[i].redeem.transaction == run.events[j].redeem.transaction
    ensures run.events[i].redeem.redemption == run.events[j].redeem.redemption
  {
    hide Inv, Step;
    var id, redemption := run.events[i].redeem.transaction, run.events[i].redeem.redemption;
    assert StepAt(run, i) && StepAt(run, j);
    ExchangeLeavesRedemption(run.states[i], run.events[i], run.states[i + 1], run.replies[i]);
    ExchangeLeavesRedemption(run.states[j], run.events[j], run.states[j + 1], run.replies[j]);
    forall s, e, s', r | Inv(s) && Step(s, e, s', r) && RedeemedBy(s, id, redemption)
      ensures RedeemedBy(s', id, redemption)
    {
      RedeemedByStays(s, e, s', r, id, redemption);
    }
    Persists(run, i + 1, j + 1, s => RedeemedBy(s, id, redemption));
  }

  /** An attempt issues at most one family, and every answered exchange of it carries the first redemption
      id and returns the first result. */
  lemma OneFamilyPerAttempt(run: Run, i: nat, j: nat)
    requires IsRun(run) && i < j < |run.events| && run.events[i].Exchange? && run.replies[i].Exchanged?
    requires run.events[j].Exchange? && run.replies[j].Exchanged?
    requires run.events[i].redeem.transaction == run.events[j].redeem.transaction
    ensures run.replies[i].result == run.replies[j].result
    ensures run.events[i].redeem.redemption == run.events[j].redeem.redemption
    ensures !Issues(run.states[j].db, run.states[j].clock, run.events[j], run.states[j + 1].db)
  {
    hide Inv, Step, RedeemedTo, Issues;
    var id, result := run.events[i].redeem.transaction, run.replies[i].result;
    assert StepAt(run, i) && StepAt(run, j);
    ExchangeRedeems(run.states[i], run.events[i], run.states[i + 1], run.replies[i]);
    forall s, e, s', r | Inv(s) && Step(s, e, s', r) && RedeemedTo(s, id, result) ensures RedeemedTo(s', id, result) {
      RedeemedStays(s, e, s', r, id, result);
    }
    Persists(run, i + 1, j, s => RedeemedTo(s, id, result));
    RedeemedStays(run.states[j], run.events[j], run.states[j + 1], run.replies[j], id, result);
    ExchangeRedeems(run.states[j], run.events[j], run.states[j + 1], run.replies[j]);
    SameResult(run.states[j], id, result, run.replies[j].result);
    OneRedemptionPerAttempt(run, i, j);
  }

  lemma SameResult(s: System, id: string, a: ExchangeResult, b: ExchangeResult)
    requires RedeemedTo(s, id, a) && RedeemedTo(s, id, b)
    ensures a == b
  {
  }

  // Provider codes

  ghost predicate CodeClaimed(s: System, id: string) {
    id in s.db.attempts && s.db.attempts[id].phase != New && s.db.attempts[id].phase != Authorizing
  }

  lemma ClaimedStays(s: System, e: Event, s': System, r: Reply, id: string)
    requires Step(s, e, s', r) && CodeClaimed(s, id)
    ensures CodeClaimed(s', id)
    ensures !(r.Waiting? && r.call.CallbackCall? && r.call.id == id)
  {
    hide AttemptTable, ReceiptTable, FamilyTable, EpochTable, ReplyFacts, ReplyKind, Proof, Enabled;
    hide OpenAttempt, SecretOf, Passes;
    AttemptFate(s.db, s.clock, e, s'.db, id);
    if r.Waiting? && r.call.CallbackCall? { NewCallbackCallKept(s, e, s', r); }
  }

  /** The provider code of a login is put to use at most once. */
  lemma OneCodeUsePerAttempt(run: Run, i: nat, j: nat)
    requires IsRun(run) && i < j < |run.events|
    requires run.replies[i].Waiting? && run.replies[i].call.CallbackCall?
    requires run.replies[j].Waiting? && run.replies[j].call.CallbackCall?
    ensures run.replies[i].call.id != run.replies[j].call.id
  {
    hide Inv, Step;
    var id := run.replies[i].call.id;
    assert StepAt(run, i) && StepAt(run, j);
    NewCallbackCallKept(run.states[i], run.events[i], run.states[i + 1], run.replies[i]);
    forall s, e, s', r | Inv(s) && Step(s, e, s', r) && CodeClaimed(s, id) ensures CodeClaimed(s', id) {
      ClaimedStays(s, e, s', r, id);
    }
    Persists(run, i + 1, j, s => CodeClaimed(s, id));
    ClaimedStays(run.states[j], run.events[j], run.states[j + 1], run.replies[j], id);
  }
}
