/** How a native login comes to issue a family, and what an epoch change does to it. */
module NativeLogins {
  import opened Options
  import opened NativeTypes
  import opened NativeSpec
  import opened NativeSteps
  import opened NativeInvariant
  import opened NativeRuns

  ghost predicate RowAt(run: Run, m: nat, id: string, row: Attempt) {
    m < |run.states| && id in run.states[m].db.attempts && run.states[m].db.attempts[id] == row
  }

  /** Event h changed attempt id from row to row'. */
  ghost predicate Moves(run: Run, h: nat, id: string, row: Attempt, row': Attempt) {
    && IsRun(run) && h < |run.events|
    && RowAt(run, h, id, row) && RowAt(run, h + 1, id, row')
    && AttemptStep(run.states[h].db, run.states[h].clock, run.events[h], id, row, row', run.states[h + 1].db)
  }

  /** Event h stored login id. */
  ghost predicate Creates(run: Run, h: nat, id: string) {
    && IsRun(run) && h < |run.events|
    && var e := run.events[h];
    && e.Login? && e.id == id && e.provider.LoginReady? && (e.request.expected.Some? ==> e.request.expected.value != "")
    && id !in run.states[h].db.attempts
    && RowAt(run, h + 1, id, FirstRow(run.states[h].db, e.created, e.request, e.provider, id, e.browserCookie))
  }

  lemma StepEnters(s: System, e: Event, s': System, r: Reply, id: string)
    requires Step(s, e, s', r) && id in s'.db.attempts && Pending(s'.db.attempts[id].phase)
    ensures id !in s.db.attempts ==> Opens(s.db, e, s'.db) && e.Login? && e.id == id && s'.db.attempts[id].phase == New
    ensures id in s.db.attempts && s'.db.attempts[id] != s.db.attempts[id] ==>
      AttemptStep(s.db, s.clock, e, id, s.db.attempts[id], s'.db.attempts[id], s'.db)
  {
    hide AttemptTable, ReceiptTable, FamilyTable, EpochTable, ReplyFacts, ReplyKind, Proof, Enabled;
    hide OpenAttempt, AttemptStep;
    AttemptFate(s.db, s.clock, e, s'.db, id);
  }

  lemma CreatedBy(run: Run, h: nat, id: string)
    requires IsRun(run) && h < |run.events| && id !in run.states[h].db.attempts
    requires Opens(run.states[h].db, run.events[h], run.states[h + 1].db) && run.events[h].id == id
    ensures Creates(run, h, id)
  {
    hide StepAt, EpochOf;
  }

  /** Every pending row was stored by some earlier event and has not changed since. */
  lemma {:induction false} Entered(run: Run, m: nat, id: string) returns (h: nat)
    requires IsRun(run) && m < |run.states| && id in run.states[m].db.attempts
      && Pending(run.states[m].db.attempts[id].phase)
    ensures h < m
    ensures var row' := run.states[m].db.attempts[id];
      || (Creates(run, h, id) && RowAt(run, h + 1, id, row') && row'.phase == New)
      || (exists row :: Moves(run, h, id, row, row'))
  {
    hide Step, Opens, AttemptStep;
    assert m > 0;
    var s, s' := run.states[m - 1], run.states[m];
    assert StepAt(run, m - 1);
    StepEnters(s, run.events[m - 1], s', run.replies[m - 1], id);
    if id in s.db.attempts && s'.db.attempts[id] == s.db.attempts[id] {
      h := Entered(run, m - 1, id);
    } else {
      h := m - 1;
      if id in s.db.attempts { assert Moves(run, h, id, s.db.attempts[id], s'.db.attempts[id]); }
      else { CreatedBy(run, h, id); }
    }
  }

  /** The previous move of a row that is not new. */
  lemma CameFrom(run: Run, m: nat, id: string) returns (h: nat, row: Attempt)
    requires IsRun(run) && m < |run.states| && id in run.states[m].db.attempts
    requires Pending(run.states[m].db.attempts[id].phase) && run.states[m].db.attempts[id].phase != New
    ensures h < m && Moves(run, h, id, row, run.states[m].db.attempts[id])
  {
    hide Step, Opens, AttemptStep, IsRun;
    h := Entered(run, m, id);
    row :| Moves(run, h, id, row, run.states[m].db.attempts[id]);
  }

  /** A login in order: opened at a, taken to the browser at b, its provider code claimed at c, its
      user identified at d, confirmed at h; the browser cookie, the nonce, the handoff code and the verifier match. */
  ghost predicate InOrder(run: Run, a: nat, b: nat, c: nat, d: nat, h: nat, k: nat)
    requires k < |run.events| < |run.states|
  {
    && a < b < c < d < h < k
    && var ea, eb, ec, ed, eh, ek := run.events[a], run.events[b], run.events[c], run.events[d], run.events[h],
      run.events[k];
    && ea.Login? && ek.Exchange? && ek.redeem.transaction == ea.id
    && eb == Browser(ea.id)
    && ec.BeginCallback? && ea.provider.LoginReady? && ec.state == ea.provider.state
    && ec.cookie == Some(ea.browserCookie)
    && ed.FinishCallback? && ed.call.CallbackCall? && ed.call.id == ea.id && ed.code'.CodeAccepted?
    && eh.ConfirmLogin? && eh.id == ea.id && eh.cookie == Some(ea.browserCookie) && eh.presented == ed.nonce
    && ek.redeem.code == eh.handoff && HashText(ek.redeem.verifier) == ea.request.challenge
    && run.states[k].clock < ea.created + ATTEMPT_TTL
  }

  /** What a login never changes. */
  ghost predicate SameLogin(row: Attempt, row': Attempt) {
    && row'.challenge == row.challenge && row'.expires == row.expires && row'.created == row.created
    && row'.expected == row.expected && row'.startEpoch == row.startEpoch && row'.stateHash == row.stateHash
  }

  lemma IntoReady(run: Run, h: nat, id: string, row: Attempt, row': Attempt)
    requires Moves(run, h, id, row, row') && row'.phase == Ready
    ensures var e := run.events[h];
      && row.phase == Confirm && e.ConfirmLogin? && e.id == id
      && e.cookie.Some? && row.cookieHash == HashText(e.cookie.value) && row.confirmHash == HashText(e.presented)
      && row'.codeHash == HashText(e.handoff) && SameLogin(row, row')
      && row'.handoffExpires.Some? && row'.handoffExpires.value <= row.expires
      && row'.epoch == row.epoch && row'.user == row.user
  {
    hide IsRun, EpochOf, OpenAttempt, EpochUntouched;
  }

  lemma IntoConfirm(run: Run, d: nat, id: string, row: Attempt, row': Attempt)
    requires Moves(run, d, id, row, row') && row'.phase == Confirm
    ensures var e := run.events[d];
      && row.phase == Verifying && e.FinishCallback? && e.call.CallbackCall? && e.call.id == id && e.code'.CodeAccepted?
      && row'.confirmHash == HashText(e.nonce) && row'.cookieHash == row.cookieHash
      && SameLogin(row, row')
      && EpochUntouched(run.states[d].db, e.call.attempt, e.code'.user)
      && row'.user == e.code'.user && row'.epoch == Some(EpochOf(run.states[d].db, row'.user).number)
  {
    hide IsRun, EpochOf, OpenAttempt, EpochUntouched;
  }

  lemma IntoVerifying(run: Run, c: nat, id: string, row: Attempt, row': Attempt)
    requires Moves(run, c, id, row, row') && row'.phase == Verifying
    ensures var e := run.events[c];
      && row.phase == Authorizing && e.BeginCallback? && row.stateHash == HashText(e.state)
      && e.cookie.Some? && row.cookieHash == HashText(e.cookie.value)
      && row'.cookieHash == row.cookieHash && SameLogin(row, row')
  {
    hide IsRun, EpochOf, OpenAttempt, EpochUntouched;
  }

  lemma IntoAuthorizing(run: Run, b: nat, id: string, row: Attempt, row': Attempt)
    requires Moves(run, b, id, row, row') && row'.phase == Authorizing
    ensures && row.phase == New && run.events[b] == Browser(id) && OpenAttempt(id, row.secret).Some?
      && row'.cookieHash == HashText(OpenAttempt(id, row.secret).value.browserCookie)
      && SameLogin(row, row')
  {
    hide IsRun, EpochOf, EpochUntouched, OpenAttempt;
  }

  lemma IntoNew(run: Run, a: nat, b: nat, id: string)
    requires IsRun(run) && a < b < |run.states| && id in run.states[b].db.attempts
      && run.states[b].db.attempts[id].phase == New
    requires (Creates(run, a, id) && RowAt(run, a + 1, id, run.states[b].db.attempts[id]))
      || (exists row :: Moves(run, a, id, row, run.states[b].db.attempts[id]))
    ensures var e, row := run.events[a], run.states[b].db.attempts[id];
      && Creates(run, a, id) && e.Login? && e.id == id && e.provider.LoginReady? && RowAt(run, a + 1, id, row)
      && row == FirstRow(run.states[a].db, e.created, e.request, e.provider, e.id, e.browserCookie)
  {
    hide IsRun, EpochOf, EpochUntouched, OpenAttempt;
  }

  /** Every issued family went through every phase in order, strictly within 600 seconds. */
  lemma IssuedInOrder(run: Run, k: nat) returns (a: nat, b: nat, c: nat, d: nat, h: nat)
    requires IsRun(run) && k < |run.events|
    requires Issues(run.states[k].db, run.states[k].clock, run.events[k], run.states[k + 1].db)
    ensures InOrder(run, a, b, c, d, h, k)
    ensures Creates(run, a, run.events[k].redeem.transaction)
    ensures var id, ed := run.events[a].id, run.events[d];
      && EpochUntouched(run.states[d].db, ed.call.attempt, ed.code'.user)
      && id in run.states[d].db.attempts && SameLogin(run.states[a + 1].db.attempts[id], run.states[d].db.attempts[id])
      && id in run.states[k].db.attempts && run.states[k].db.attempts[id].user == ed.code'.user
      && run.states[k].db.attempts[id].epoch == Some(EpochOf(run.states[d].db, ed.code'.user).number)
  {
    hide StepAt, Moves, Creates, EpochOf, EpochUntouched, SecretOf, GrantedRow;
    var id := run.events[k].redeem.transaction;
    var ready := run.states[k].db.attempts[id];
    var confirm, verifying, authorizing, newborn;
    h, confirm := CameFrom(run, k, id);
    IntoReady(run, h, id, confirm, ready);
    RowOf(run, h, id, confirm, ready);
    d, verifying := CameFrom(run, h, id);
    IntoConfirm(run, d, id, verifying, confirm);
    RowOf(run, d, id, verifying, confirm);
    c, authorizing := CameFrom(run, d, id);
    IntoVerifying(run, c, id, authorizing, verifying);
    RowOf(run, c, id, authorizing, verifying);
    b, newborn := CameFrom(run, c, id);
    IntoAuthorizing(run, b, id, newborn, authorizing);
    RowOf(run, b, id, newborn, authorizing);
    a := Entered(run, b, id);
    IntoNew(run, a, b, id);
  }

  lemma RowOf(run: Run, h: nat, id: string, row: Attempt, row': Attempt)
    requires Moves(run, h, id, row, row')
    ensures h < |run.events| < |run.states| && id in run.states[h].db.attempts && run.states[h].db.attempts[id] == row
  {
  }

  // Epochs

  lemma EpochsOnlyRise(run: Run, i: nat, j: nat, user: string)
    requires IsRun(run) && i <= j < |run.states|
    ensures EpochOf(run.states[i].db, user).number <= EpochOf(run.states[j].db, user).number
  {
    hide Inv, Step, EpochOf;
    var n := EpochOf(run.states[i].db, user).number;
    forall s, e, s', r | Inv(s) && Step(s, e, s', r) && n <= EpochOf(s.db, user).number
      ensures n <= EpochOf(s'.db, user).number
    {
      EpochStep(s, e, s', r, user);
    }
    Persists(run, i, j, (s: System) => n <= EpochOf(s.db, user).number);
  }

  lemma EpochStep(s: System, e: Event, s': System, r: Reply, user: string)
    requires Step(s, e, s', r)
    ensures s.clock <= s'.clock
    ensures EpochOf(s.db, user).number <= EpochOf(s'.db, user).number
    ensures EpochOf(s'.db, user) == EpochOf(s.db, user)
      || (e.Bump? && e.bumped == user && EpochOf(s'.db, user).changedAt == s.clock)
    ensures e.Bump? && e.bumped == user ==> EpochOf(s.db, user).number < EpochOf(s'.db, user).number
  {
    hide AttemptTable, ReceiptTable, FamilyTable, ReplyFacts, ReplyKind, Proof;
  }

  /** A user whose last change is older than state i has had no change since state i. */
  lemma QuietSince(run: Run, i: nat, j: nat, user: string)
    requires IsRun(run) && i <= j < |run.states| && EpochOf(run.states[j].db, user).changedAt < run.states[i].clock
    ensures EpochOf(run.states[j].db, user) == EpochOf(run.states[i].db, user)
  {
    hide Inv, Step, EpochOf;
    var t, x := run.states[i].clock, EpochOf(run.states[i].db, user);
    var p := (s: System) => t <= s.clock && (EpochOf(s.db, user) == x || t <= EpochOf(s.db, user).changedAt);
    forall s, e, s', r | Inv(s) && Step(s, e, s', r) && p(s) ensures p(s') { EpochStep(s, e, s', r, user); }
    Persists(run, i, j, p);
  }

  lemma CallKnowsLogin(s: System, e: Event)
    requires Inv(s) && Enabled(s, e) && e.FinishCallback?
    ensures e.call.id in s.db.attempts
    ensures var row, seen := s.db.attempts[e.call.id], e.call.attempt;
      seen.created == row.created && seen.expected == row.expected && seen.startEpoch == row.startEpoch
  {
    assert CallbackCallOk(s, e.call);
  }

  lemma LoginKeepsClock(s: System, e: Event, s': System, r: Reply)
    requires Step(s, e, s', r) && e.Login?
    ensures e.created <= s.clock == s'.clock && s'.db.epochs == s.db.epochs
  {
    hide AttemptTable, ReceiptTable, FamilyTable, ReplyFacts, ReplyKind, Proof;
  }

  ghost predicate BumpsAt(run: Run, b: nat, user: string)
    requires b < |run.events|
  {
    run.events[b].Bump? && run.events[b].bumped == user
  }

  /** Without a bump a user's epoch stays. */
  lemma {:induction false} Unbumped(run: Run, i: nat, j: nat, user: string)
    requires IsRun(run) && i <= j < |run.states| && forall b :: i <= b < j ==> !BumpsAt(run, b, user)
    ensures EpochOf(run.states[i].db, user) == EpochOf(run.states[j].db, user)
    decreases j - i
  {
    hide Step, EpochOf;
    if i < j {
      assert StepAt(run, i) && !BumpsAt(run, i, user);
      EpochStep(run.states[i], run.events[i], run.states[i + 1], run.replies[i], user);
      Unbumped(run, i + 1, j, user);
    }
  }

  /** A bump raises the number, and leaves a stamp no older than itself. */
  lemma BumpLeavesStamp(run: Run, a: nat, b: nat, d: nat, user: string)
    requires IsRun(run) && a <= b < d < |run.states| && BumpsAt(run, b, user)
    ensures EpochOf(run.states[a].db, user).number < EpochOf(run.states[d].db, user).number
    ensures run.states[a].clock <= run.states[b].clock <= EpochOf(run.states[d].db, user).changedAt
  {
    hide Inv, Step, EpochOf;
    assert StepAt(run, b);
    EpochStep(run.states[b], run.events[b], run.states[b + 1], run.replies[b], user);
    EpochsOnlyRise(run, a, b, user);
    EpochsOnlyRise(run, b + 1, d, user);
    var t, u := run.states[b].clock, run.states[a].clock;
    var p := (s: System) => t <= s.clock && t <= EpochOf(s.db, user).changedAt;
    forall s, e, s', r | Inv(s) && Step(s, e, s', r) && p(s) ensures p(s') { EpochStep(s, e, s', r, user); }
    Persists(run, b + 1, d, p);
    forall s, e, s', r | Inv(s) && Step(s, e, s', r) && u <= s.clock ensures u <= s'.clock {
      EpochStep(s, e, s', r, user);
    }
    Persists(run, a, b, (s: System) => u <= s.clock);
  }

  /** Login id, stored at a, was identified at d although its user's epoch had to be untouched. */
  ghost predicate Identified(run: Run, a: nat, d: nat, id: string, user: string) {
    && IsRun(run) && a < d < |run.events| && Creates(run, a, id)
    && run.events[d].FinishCallback? && run.events[d].call.CallbackCall? && run.events[d].call.id == id
    && id in run.states[d].db.attempts && SameLogin(run.states[a + 1].db.attempts[id], run.states[d].db.attempts[id])
    && EpochUntouched(run.states[d].db, run.events[d].call.attempt, user)
  }

  /** The only bump that the callback of an older login misses is one stamped zero, for a login
      without an expected user. */
  lemma MissedBumpIsStampedZero(run: Run, a: nat, b: nat, d: nat, id: string, user: string)
    requires Identified(run, a, d, id, user) && a < b < d && BumpsAt(run, b, user)
    ensures run.events[a].request.expected.None? && run.states[b].clock == 0
  {
    hide Step, Inv, OpenAttempt, EpochOf;
    assert StepAt(run, a) && StepAt(run, d);
    RunInv(run, d);
    StepEnabled(run.states[d], run.events[d], run.states[d + 1], run.replies[d]);
    CallKnowsLogin(run.states[d], run.events[d]);
    LoginKeepsClock(run.states[a], run.events[a], run.states[a + 1], run.replies[a]);
    SameEpochs(run.states[a].db, run.states[a + 1].db, user);
    BumpLeavesStamp(run, a + 1, b, d, user);
  }

  lemma SameEpochs(db: Db, db': Db, user: string)
    requires db'.epochs == db.epochs
    ensures EpochOf(db', user) == EpochOf(db, user)
  {
  }

  lemma StepEnabled(s: System, e: Event, s': System, r: Reply)
    requires Step(s, e, s', r)
    ensures Enabled(s, e)
  {
    hide TableStep;
  }

  /** A bump of the user stamped zero fell between the storing of the login and its identification. */
  ghost predicate ZeroBumpBetween(run: Run, a: nat, d: nat, user: string)
    requires d < |run.events| < |run.states|
  {
    exists b :: a < b < d && BumpsAt(run, b, user) && run.states[b].clock == 0
  }

  /** From the storing of its login at a, over its identification at d, to its redemption at k, the
      user of an issued family had one epoch, the family's, if and only if no bump of that user
      stamped zero fell between a and d. */
  lemma EpochHeld(run: Run, k: nat) returns (a: nat, d: nat)
    requires IsRun(run) && k < |run.events|
    requires Issues(run.states[k].db, run.states[k].clock, run.events[k], run.states[k + 1].db)
    ensures a < d < k && Creates(run, a, run.events[k].redeem.transaction)
    ensures var family := run.states[k + 1].db.families[run.events[k].family];
      && Identified(run, a, d, run.events[k].redeem.transaction, family.user)
      && EpochOf(run.states[d].db, family.user).number == EpochOf(run.states[k].db, family.user).number == family.epoch
      && ((forall m :: a < m <= k ==> EpochOf(run.states[m].db, family.user).number == family.epoch)
          <==> !ZeroBumpBetween(run, a, d, family.user))
      && (run.events[a].request.expected.Some? ==> !ZeroBumpBetween(run, a, d, family.user))
  {
    hide Step, StepAt, EpochOf, OpenAttempt, EpochUntouched, Creates, FirstRow, SameLogin;
    var b, c, h;
    a, b, c, d, h := IssuedInOrder(run, k);
    var id, user := run.events[a].id, run.events[d].code'.user;
    assert Identified(run, a, d, id, user);
    var n := EpochOf(run.states[d].db, user).number;
    forall b | a < b < d && BumpsAt(run, b, user)
      ensures run.states[b].clock == 0 && run.events[a].request.expected.None?
      ensures EpochOf(run.states[b].db, user).number < n
    {
      MissedBumpIsStampedZero(run, a, b, d, id, user);
      BumpLeavesStamp(run, b, b, d, user);
    }
    if !ZeroBumpBetween(run, a, d, user) {
      Unbumped(run, a + 1, d, user);
      forall m | a < m <= k ensures EpochOf(run.states[m].db, user).number == n {
        EpochsOnlyRise(run, a + 1, m, user);
        EpochsOnlyRise(run, m, k, user);
      }
    }
  }

  lemma AttemptsPersist(run: Run, i: nat, j: nat, id: string)
    requires IsRun(run) && i <= j < |run.states| && id in run.states[i].db.attempts
    ensures id in run.states[j].db.attempts
  {
    hide Inv, Step;
    forall s, e, s', r | Inv(s) && Step(s, e, s', r) && id in s.db.attempts ensures id in s'.db.attempts {
      StepTables(s, e, s', r);
      AttemptFate(s.db, s.clock, e, s'.db, id);
    }
    Persists(run, i, j, (s: System) => id in s.db.attempts);
  }

  lemma ExpectedStays(s: System, e: Event, s': System, r: Reply, id: string)
    requires Step(s, e, s', r) && id in s.db.attempts
    ensures id in s'.db.attempts && s'.db.attempts[id].expected == s.db.attempts[id].expected
    ensures s'.db.attempts[id].port == s.db.attempts[id].port
  {
    hide AttemptTable, ReceiptTable, FamilyTable, EpochTable, ReplyFacts, ReplyKind, Proof, Enabled, OpenAttempt;
    hide EpochUntouched, EpochOf;
    AttemptFate(s.db, s.clock, e, s'.db, id);
  }

  lemma ExpectedKept(run: Run, i: nat, j: nat, id: string)
    requires IsRun(run) && i <= j < |run.states| && id in run.states[i].db.attempts
    ensures id in run.states[j].db.attempts
    ensures run.states[j].db.attempts[id].expected == run.states[i].db.attempts[id].expected
  {
    hide Inv, Step;
    var x := run.states[i].db.attempts[id].expected;
    var p := (s: System) => id in s.db.attempts && s.db.attempts[id].expected == x;
    forall s, e, s', r | Inv(s) && Step(s, e, s', r) && p(s) ensures p(s') { ExpectedStays(s, e, s', r, id); }
    Persists(run, i, j, p);
  }

  /** After a change of a user's epoch no login stored before it issues a family for that user, unless
      the change is stamped zero and the login expects no user. */
  lemma BumpEndsOlderLogins(run: Run, i: nat, k: nat)
    requires IsRun(run) && i < k < |run.events| && run.events[i].Bump?
    requires Issues(run.states[k].db, run.states[k].clock, run.events[k], run.states[k + 1].db)
    requires run.events[k].redeem.transaction in run.states[i].db.attempts
    requires run.states[i].clock > 0 || run.states[i].db.attempts[run.events[k].redeem.transaction].expected != ""
    ensures run.states[k + 1].db.families[run.events[k].family].user != run.events[i].bumped
  {
    hide Step, EpochOf, OpenAttempt, GrantedRow, EpochUntouched, SameLogin, StepAt;
    var a, d := EpochHeld(run, k);
    var id, user := run.events[k].redeem.transaction, run.events[i].bumped;
    if i <= a { AttemptsPersist(run, i, a, id); }
    ExpectedKept(run, a + 1, i, id);
    if BumpsAt(run, i, user) && i >= d { BumpLeavesStamp(run, d, i, k, user); }
    if i < d && Identified(run, a, d, id, user) { MissedBumpIsStampedZero(run, a, i, d, id, user); }
  }

  /** After a change of a user's epoch every family issued before it is dead and serves nothing. */
  lemma BumpEndsOlderFamilies(run: Run, i: nat, k: nat, f: string)
    requires IsRun(run) && i < k < |run.states| && run.events[i].Bump?
    requires f in run.states[i].db.families && run.states[i].db.families[f].user == run.events[i].bumped
    ensures Dead(run.states[k], f)
    ensures k < |run.events| ==> !Uses(run.events[k], run.replies[k], f)
  {
    hide Step, Inv, Dead, Uses;
    assert StepAt(run, i);
    RunInv(run, i);
    BumpKillsFamily(run.states[i], run.events[i], run.states[i + 1], run.replies[i], f);
    DeadForever(run, i + 1, k, f);
  }

  lemma BumpKillsFamily(s: System, e: Event, s': System, r: Reply, f: string)
    requires Inv(s) && Step(s, e, s', r) && e.Bump? && f in s.db.families && s.db.families[f].user == e.bumped
    ensures Dead(s', f)
  {
    hide AttemptTable, ReceiptTable, FamilyTable, ReplyFacts, ReplyKind, Proof, SecretOf, AttemptsOk, LinksOk;
    hide RefreshCallsOk, CallbackCallsOk;
    assert FamilyOk(s, f);
    FamilyFate(s.db, s.clock, e, s'.db, f);
  }
}
