/** When the native session service answers, and with what. Every answer of an execution is tied, in both
    directions, to the columns of the rows and to the values that events brought in. */
module NativeAnswers {
  import opened Options
  import opened NativeTypes
  import opened NativeSpec
  import opened NativeSteps
  import opened NativeInvariant
  import opened NativeRuns
  import opened NativeLogins

  lemma Executed(run: Run, i: nat)
    requires Executes(run) && i < |run.events|
    ensures IsRun(run) && Inv(run.states[i]) && Known(run.states[i]) && Enabled(run.states[i], run.events[i])
    ensures Transact(run.states[i], run.events[i]) == (run.states[i + 1].db, run.replies[i])
  {
    ExecutionIsRun(run);
    RunInv(run, i);
    KnownInRun(run, i);
    assert run.events[i] == run.events[i];
    hide Inv, Known, IsRun, Transact, Enabled;
  }

  // What else every reachable state satisfies

  /** Identifiers were drawn, states tell logins apart, and waiting calls know their family's user. */
  ghost predicate Known(s: System) {
    && s.db.families.Keys <= s.drawn && s.db.attempts.Keys <= s.drawn
    && (forall a, b :: a in s.db.attempts && b in s.db.attempts
          ==> (s.db.attempts[a].stateHash == s.db.attempts[b].stateHash ==> a == b))
    && (forall c :: c in s.calls ==> UserKnown(s.db, c))
  }

  ghost predicate UserKnown(db: Db, c: Call) {
    match c
    case CallbackCall(_, _, _) => true
    case RefreshCall(_, f, row, _, _) => f in db.families && row.user == db.families[f].user
    case RecheckCall(ref, secret) => ref.family in db.families && secret.grant.user == db.families[ref.family].user
  }

  lemma UserStays(s: System, e: Event, s': System, r: Reply, f: string)
    requires Step(s, e, s', r) && f in s.db.families
    ensures f in s'.db.families && s'.db.families[f].user == s.db.families[f].user
  {
    hide AttemptTable, ReceiptTable, FamilyTable, EpochTable, ReplyFacts, ReplyKind, Proof, Enabled, Issues, EpochOf;
    hide NewGrant, Cancels;
    FamilyFate(s.db, s.clock, e, s'.db, f);
  }

  lemma NewUserKnown(s: System, e: Event, s': System, r: Reply)
    requires Step(s, e, s', r) && r.Waiting?
    ensures UserKnown(s.db, r.call)
  {
    hide AttemptTable, ReceiptTable, FamilyTable, EpochTable, ReplyKind, Proof, Enabled;
  }

  lemma FamilyIdsDrawn(s: System, e: Event, s': System, r: Reply)
    requires Step(s, e, s', r) && s.db.families.Keys <= s.drawn
    ensures s'.db.families.Keys <= s'.drawn
  {
    hide AttemptTable, ReceiptTable, FamilyTable, EpochTable, ReplyFacts, ReplyKind, Proof, Enabled, FamilyPut, Rotates;
    forall f | f in s'.db.families ensures f in s'.drawn { FamilyFate(s.db, s.clock, e, s'.db, f); }
  }

  /** Where an attempt's row and its state come from. */
  lemma StateStays(s: System, e: Event, s': System, r: Reply, id: string)
    requires Step(s, e, s', r) && id in s'.db.attempts
    ensures id in s.db.attempts ==> s'.db.attempts[id].stateHash == s.db.attempts[id].stateHash
    ensures id !in s.db.attempts ==>
      && e.Login? && e.id == id && id in s'.drawn
      && forall other :: other in s.db.attempts ==> s.db.attempts[other].stateHash != s'.db.attempts[id].stateHash
  {
    hide AttemptTable, ReceiptTable, FamilyTable, EpochTable, ReplyFacts, ReplyKind, Proof, Enabled, OpenAttempt;
    hide EpochOf, EpochUntouched;
    AttemptFate(s.db, s.clock, e, s'.db, id);
    forall other | id !in s.db.attempts && other in s.db.attempts
      ensures s.db.attempts[other].stateHash != s'.db.attempts[id].stateHash
    {
      assert HasState(s.db, s.db.attempts[other].stateHash, other);
    }
  }

  lemma AttemptsStayApart(s: System, e: Event, s': System, r: Reply, a: string, b: string)
    requires Step(s, e, s', r) && Known(s) && a in s'.db.attempts && b in s'.db.attempts
    requires s'.db.attempts[a].stateHash == s'.db.attempts[b].stateHash
    ensures a == b
  {
    hide Step, UserKnown;
    StateStays(s, e, s', r, a);
    StateStays(s, e, s', r, b);
  }

  lemma KnownStays(s: System, e: Event, s': System, r: Reply)
    requires Step(s, e, s', r) && Known(s)
    ensures Known(s')
  {
    FamilyIdsDrawn(s, e, s', r);
    forall id | id in s'.db.attempts ensures id in s'.drawn { StateStays(s, e, s', r, id); }
    forall a, b | a in s'.db.attempts && b in s'.db.attempts
      ensures s'.db.attempts[a].stateHash == s'.db.attempts[b].stateHash ==> a == b
    {
      if s'.db.attempts[a].stateHash == s'.db.attempts[b].stateHash { AttemptsStayApart(s, e, s', r, a, b); }
    }
    forall c | c in s'.calls ensures UserKnown(s'.db, c) {
      if c !in s.calls { NewUserKnown(s, e, s', r); }
      if c.RecheckCall? { UserStays(s, e, s', r, c.reference.family); }
      if c.RefreshCall? { UserStays(s, e, s', r, c.family); }
    }
    hide TableStep, Enabled;
  }

  lemma KnownInRun(run: Run, i: nat)
    requires IsRun(run) && i < |run.states|
    ensures Known(run.states[i])
  {
    hide Inv, Step;
    forall s, e, s', r | Inv(s) && Step(s, e, s', r) && Known(s) ensures Known(s') { KnownStays(s, e, s', r); }
    Persists(run, 0, i, s => Known(s));
  }

  // Logins

  /** A login is started exactly when the request is well formed, the provider answered and there is room
      for one more, and then its row holds what the request and the provider brought. */
  ghost predicate LoginAnswer(s: System, e: Event, db': Db, r: Reply)
    requires e.Login?
  {
    && (r.Started? <==>
          && e.request.challenge.Sha? && e.request.destination == "windows-loopback" && e.request.port >= 1024
          && (e.request.expected.Some? ==> CanonicalUser(e.request.expected.value))
          && e.provider.LoginReady? && StateValid(e.provider.state) && |s.db.attempts| < 4096
          && StateUnused(s.db, e.provider.state))
    && (r.Started? ==> r.id == e.id && e.id in db'.attempts && LoginStored(s.db, e, db'.attempts[e.id])
                       && db' == s.db.(attempts := s.db.attempts[e.id := db'.attempts[e.id]]))
    && (!r.Started? ==> db' == s.db)
  }

  ghost predicate StateUnused(db: Db, state: string) {
    forall id :: id in db.attempts ==> db.attempts[id].stateHash != Sha(Plain(state))
  }

  ghost predicate LoginStored(db: Db, e: Event, row: Attempt)
    requires e.Login?
  {
    && e.provider.LoginReady?
    && row.stateHash == Sha(Plain(e.provider.state)) && row.challenge == e.request.challenge
    && row.port == e.request.port && row.created == e.created && row.expires == e.created + 600
    && row.phase == New && row.family == "" && row.epoch.None?
    && row.expected == (if e.request.expected.Some? then e.request.expected.value else "")
    && row.startEpoch == EpochOf(db, row.expected).number
    && OpenAttempt(e.id, row.secret).Some?
    && var secret := OpenAttempt(e.id, row.secret).value;
    && secret.authorizationUrl == e.provider.authorizationUrl && secret.loginCookie == e.provider.loginCookie
    && secret.browserCookie == e.browserCookie
  }

  lemma LoginAnswers(s: System, e: Event)
    requires e.Login? && e.id !in s.db.attempts
    ensures var (db', r) := LoginTx(s.db, e.created, e.request, e.provider, e.id, e.browserCookie);
      LoginAnswer(s, e, db', r)
  {
    hide CanonicalUser, StateValid, EpochOf;
    if e.provider.LoginReady? {
      var h := HashText(e.provider.state);
      assert forall id :: HasState(s.db, h, id) <==> id in s.db.attempts && s.db.attempts[id].stateHash == h;
    }
  }

  /** Only the first opening of a login in its lifetime sends the browser on, with the address and the cookie
      that are sealed in its row. */
  ghost predicate BrowserAnswer(s: System, e: Event, db': Db, r: Reply)
    requires e.Browser?
  {
    var opens := Proof(e.id) && e.id in s.db.attempts && s.db.attempts[e.id].phase == New
                 && s.clock < s.db.attempts[e.id].expires;
    && (r.SentToProvider? <==> opens)
    && (opens ==>
          && var row := s.db.attempts[e.id];
          && OpenAttempt(e.id, row.secret).Some?
          && var secret := OpenAttempt(e.id, row.secret).value;
          && r == SentToProvider(secret.authorizationUrl, secret.browserCookie)
          && db' == s.db.(attempts := s.db.attempts[e.id :=
                      row.(phase := Authorizing, cookieHash := Sha(Plain(secret.browserCookie)))]))
    && (!opens ==> db' == s.db)
  }

  lemma BrowserAnswers(s: System, e: Event)
    requires e.Browser? && (e.id in s.db.attempts ==> AttemptOk(s, e.id))
    ensures var (db', r) := BrowserTx(s.db, s.clock, e.id); BrowserAnswer(s, e, db', r)
  {
    hide Proof;
  }

  /** A provider code is taken exactly for the authorizing login of that state, in its lifetime and in the
      browser that was sent; the call remembers that login and its provider cookie. */
  ghost predicate CallbackAnswer(s: System, e: Event, db': Db, r: Reply)
    requires e.BeginCallback?
  {
    && (r.Waiting? <==> e.code != "" && |e.code| <= 4096 && StateValid(e.state) && exists id :: Calls(s, e, id))
    && (r.Waiting? ==>
          && r.call.CallbackCall? && Calls(s, e, r.call.id)
          && var row := s.db.attempts[r.call.id];
          && r.call.attempt == row && OpenAttempt(r.call.id, row.secret) == Some(r.call.attemptSecret)
          && db' == s.db.(attempts := s.db.attempts[r.call.id := row.(phase := Verifying)]))
    && (!r.Waiting? ==> db' == s.db)
  }

  ghost predicate Calls(s: System, e: Event, id: string)
    requires e.BeginCallback?
  {
    && id in s.db.attempts
    && var row := s.db.attempts[id];
    && row.stateHash == Sha(Plain(e.state)) && row.phase == Authorizing && s.clock < row.expires
    && e.cookie.Some? && Proof(e.cookie.value) && row.cookieHash == Sha(Plain(e.cookie.value))
  }

  lemma CallbackAnswers(s: System, e: Event)
    requires e.BeginCallback? && AttemptsOk(s) && Known(s)
    ensures var (db', r) := BeginCallbackTx(s.db, s.clock, e.code, e.state, e.cookie); CallbackAnswer(s, e, db', r)
  {
    hide Proof, StateValid, AttemptOk, UserKnown;
    var found := ByState(s.db, HashText(e.state));
    if found.Some? {
      PendingOpens(s, found.value);
      forall id | Calls(s, e, id) ensures id == found.value {
        assert HasState(s.db, HashText(e.state), id) && HasState(s.db, HashText(e.state), found.value);
      }
    } else {
      forall id ensures !Calls(s, e, id) { assert !HasState(s.db, HashText(e.state), id); }
    }
    hide Known, AttemptsOk, ByState;
  }

  lemma PendingOpens(s: System, id: string)
    requires AttemptsOk(s) && id in s.db.attempts
    ensures Pending(s.db.attempts[id].phase) ==> OpenAttempt(id, s.db.attempts[id].secret).Some?
  {
    assert AttemptOk(s, id);
  }

  /** An accepted code names the user exactly while the login is verifying and the user is the expected one
      on the epoch of the start, or, if none was expected, unchanged since the start; a refused code fails a
      verifying login at once, and nothing else changes anything. */
  ghost predicate NamedAnswer(s: System, e: Event, db': Db, r: Reply)
    requires e.FinishCallback? && e.call.CallbackCall? && e.call.id in s.db.attempts
  {
    var id, row := e.call.id, s.db.attempts[e.call.id];
    var names := e.code'.CodeAccepted? && row.phase == Verifying && UserUnchanged(s.db, row, e.code'.user);
    && (r.AskConfirmation? <==> names)
    && (names ==>
          && r == AskConfirmation(id, row.port, e.nonce)
          && id in db'.attempts && db' == s.db.(attempts := s.db.attempts[id := db'.attempts[id]])
          && NamedRow(s.db, e, row, db'.attempts[id]))
    && (e.code'.CodeRefused? && row.phase == Verifying ==>
          r == Rejected(e.code'.error)
          && db' == s.db.(attempts := s.db.attempts[id := row.(phase := Failed, secret := Blank)]))
    && (!names && !(e.code'.CodeRefused? && row.phase == Verifying) ==> db' == s.db)
  }

  ghost predicate UserUnchanged(db: Db, row: Attempt, user: string) {
    if row.expected != "" then row.expected == user && row.startEpoch == EpochOf(db, user).number
    else user in db.epochs ==> db.epochs[user].changedAt < row.created || db.epochs[user].changedAt == 0
  }

  ghost predicate NamedRow(db: Db, e: Event, row: Attempt, row': Attempt)
    requires e.FinishCallback? && e.call.CallbackCall? && e.code'.CodeAccepted?
  {
    && row' == row.(phase := Confirm, user := e.code'.user, epoch := Some(EpochOf(db, e.code'.user).number),
                    confirmHash := Sha(Plain(e.nonce)), secret := row'.secret)
    && OpenAttempt(e.call.id, row.secret).Some? && OpenAttempt(e.call.id, row'.secret).Some?
    && var before, after := OpenAttempt(e.call.id, row.secret).value, OpenAttempt(e.call.id, row'.secret).value;
    && after.browserCookie == before.browserCookie && after.nonce == e.nonce
    && after.providerCookies == e.code'.cookies && after.providerExpires == e.code'.expires
    && after.displayName == e.code'.displayName && after.loginCookie == "" && after.authorizationUrl == ""
  }

  lemma NamedAnswers(s: System, e: Event)
    requires e.FinishCallback? && e.call.CallbackCall? && CallbackCallOk(s, e.call)
    ensures var (db', r) := FinishCallbackTx(s.db, e.call, e.code', e.nonce); NamedAnswer(s, e, db', r)
  {
  }

  /** The handoff is given exactly to the browser and nonce of the login, in its lifetime, on the user's
      epoch and before the provider session ends; a second time the same code, until it expires. */
  ghost predicate ConfirmAnswer(s: System, e: Event, db': Db, r: Reply)
    requires e.ConfirmLogin?
  {
    && (r.HandedOff? <==> Confirms(s, e))
    && (r.HandedOff? ==>
          && var row := s.db.attempts[e.id];
          && r.port == row.port && r.id == e.id
          && (row.phase == Confirm ==>
                && r.code == e.handoff && e.id in db'.attempts
                && db' == s.db.(attempts := s.db.attempts[e.id := db'.attempts[e.id]])
                && HandedRow(s.clock, e, row, db'.attempts[e.id]))
          && (row.phase == Ready ==> row.codeHash == Sha(Plain(r.code)) && db' == s.db))
    && (!r.HandedOff? ==> db' == s.db)
  }

  ghost predicate Confirms(s: System, e: Event)
    requires e.ConfirmLogin?
  {
    && Proof(e.id) && Proof(e.presented) && e.id in s.db.attempts
    && var row := s.db.attempts[e.id];
    && (row.phase == Confirm || (row.phase == Ready && row.handoffExpires.Some? && s.clock < row.handoffExpires.value))
    && s.clock < row.expires && row.epoch == Some(EpochOf(s.db, row.user).number)
    && e.cookie.Some? && Proof(e.cookie.value) && row.cookieHash == Sha(Plain(e.cookie.value))
    && row.confirmHash == Sha(Plain(e.presented))
    && OpenAttempt(e.id, row.secret).Some? && s.clock < OpenAttempt(e.id, row.secret).value.providerExpires
  }

  ghost predicate HandedRow(now: nat, e: Event, row: Attempt, row': Attempt)
    requires e.ConfirmLogin?
  {
    && row' == row.(phase := Ready, codeHash := Sha(Plain(e.handoff)), secret := row'.secret,
                    handoffExpires := Some(if now + 60 <= row.expires then now + 60 else row.expires))
    && OpenAttempt(e.id, row.secret).Some?
    && OpenAttempt(e.id, row'.secret) == Some(OpenAttempt(e.id, row.secret).value.(handoffCode := e.handoff))
  }

  lemma ConfirmAnswers(s: System, e: Event)
    requires e.ConfirmLogin? && (e.id in s.db.attempts ==> AttemptOk(s, e.id))
    ensures var (db', r) := ConfirmTx(s.db, s.clock, e.id, e.presented, e.cookie, e.handoff);
      ConfirmAnswer(s, e, db', r)
  {
    hide Proof, EpochOf;
  }
}
