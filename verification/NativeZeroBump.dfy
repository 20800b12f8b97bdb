/** A run in which an epoch change is missed: with the clock at zero, a login without an expected
    user is stored, the user's epoch is bumped, and the login still issues a family. */
module NativeZeroBump {
  import opened Options
  import opened NativeTypes
  import opened NativeSpec
  import opened NativeSteps
  import opened NativeRuns
  import opened NativeLogins

  /** The random and chosen values of the run. */
  datatype Values = Values(
    id: string, cookie: string, nonce: string, code: string, state: string, verifier: string,
    family: string, access: string, refresh: string, revoke: string, redemption: string, user: string)

  ghost predicate Usable(v: Values) {
    && Proof(v.id) && Proof(v.cookie) && Proof(v.nonce) && Proof(v.code)
    && Proof(v.family) && Proof(v.access) && Proof(v.refresh) && Proof(v.revoke)
    && StateValid(v.state) && Verifier(v.verifier) && Operation(v.redemption)
    && v.nonce !in {v.id, v.cookie} && v.code !in {v.id, v.cookie, v.nonce}
    && {v.family, v.access, v.refresh, v.revoke} !! {v.id, v.cookie, v.nonce, v.code}
  }

  // The row of the login, phase by phase

  function Stored(v: Values): Attempt {
    Attempt(
      HashText(v.state), HashText(v.verifier), "", 0, None, "", 1024, 0, ATTEMPT_TTL, New,
      NoDigest, NoDigest, NoDigest, None, "", None, "",
      Box(ForAttempt(v.id), OfAttempt(AttemptSecret("url", "login", v.cookie, "", "", 0, "", ""))), Blank)
  }

  function Sent(v: Values): Attempt { Stored(v).(phase := Authorizing, cookieHash := HashText(v.cookie)) }

  function Asked(v: Values): Attempt { Sent(v).(phase := Verifying) }

  function Known(v: Values): AttemptSecret { AttemptSecret("", "", v.cookie, v.nonce, "cookies", 1000, "name", "") }

  function Named(v: Values): Attempt {
    Asked(v).(phase := Confirm, user := v.user, epoch := Some(1), confirmHash := HashText(v.nonce),
              secret := Box(ForAttempt(v.id), OfAttempt(Known(v))))
  }

  function Agreed(v: Values): Attempt {
    Named(v).(phase := Ready, codeHash := HashText(v.code), handoffExpires := Some(HANDOFF_TTL),
              secret := Box(ForAttempt(v.id), OfAttempt(Known(v).(handoffCode := v.code))))
  }

  function Waits(v: Values): Call {
    CallbackCall(v.id, Sent(v), AttemptSecret("url", "login", v.cookie, "", "", 0, "", ""))
  }

  // Events and states

  function Opening(v: Values): Event {
    Login(0, LoginRequest(HashText(v.verifier), "windows-loopback", 1024, None),
          LoginReady(v.state, "url", "login"), v.id, v.cookie)
  }

  function Answer(v: Values): Event {
    FinishCallback(Waits(v), CodeAccepted(v.user, "cookies", 1000, "name"), v.nonce)
  }

  function Request(v: Values): ExchangeRequest {
    ExchangeRequest(v.id, v.code, v.verifier, v.redemption, "canary", "windows-loopback")
  }

  function Events(v: Values): seq<Event> {
    [Opening(v), Bump(v.user, 1), Browser(v.id), BeginCallback("code", v.state, Some(v.cookie)), Answer(v),
     ConfirmLogin(v.id, v.nonce, Some(v.cookie), v.code),
     Exchange(Request(v), v.family, v.access, v.refresh, v.revoke)]
  }

  function Bumped(v: Values): map<string, Epoch> { map[v.user := Epoch(1, 0)] }

  function Tables(v: Values, epochs: map<string, Epoch>, row: Attempt): Db {
    Db(epochs, map[v.id := row], map[], map[])
  }

  /** The state before event n. */
  function StateAt(v: Values, n: nat): System {
    match n
    case 0 => Init
    case 1 => System(Tables(v, map[], Stored(v)), 0, {v.id, v.cookie}, {})
    case 2 => System(Tables(v, Bumped(v), Stored(v)), 0, {v.id, v.cookie}, {})
    case 3 => System(Tables(v, Bumped(v), Sent(v)), 0, {v.id, v.cookie}, {})
    case 4 => System(Tables(v, Bumped(v), Asked(v)), 0, {v.id, v.cookie}, {Waits(v)})
    case 5 => System(Tables(v, Bumped(v), Named(v)), 0, {v.id, v.cookie, v.nonce}, {})
    case _ => System(Tables(v, Bumped(v), Agreed(v)), 0, {v.id, v.cookie, v.nonce, v.code}, {})
  }

  // One transaction after the other

  lemma RowPut(v: Values, epochs: map<string, Epoch>, row: Attempt, row': Attempt)
    ensures SetAttempt(Tables(v, epochs, row), v.id, row') == Tables(v, epochs, row')
  {
  }

  lemma LoginIsStored(v: Values)
    requires Usable(v)
    ensures var e := Opening(v);
      LoginTx(Init.db, 0, e.request, e.provider, v.id, v.cookie) == (Tables(v, map[], Stored(v)), Started(v.id))
  {
    hide Proof, StateValid, Verifier, Operation;
  }

  lemma LoginIsSent(v: Values)
    requires Usable(v)
    ensures BrowserTx(Tables(v, Bumped(v), Stored(v)), 0, v.id)
         == (Tables(v, Bumped(v), Sent(v)), SentToProvider("url", v.cookie))
  {
    RowPut(v, Bumped(v), Stored(v), Sent(v));
    hide Proof, StateValid, Verifier, Operation;
  }

  lemma CodeIsClaimed(v: Values)
    requires Usable(v)
    ensures BeginCallbackTx(Tables(v, Bumped(v), Sent(v)), 0, "code", v.state, Some(v.cookie))
         == (Tables(v, Bumped(v), Asked(v)), Waiting(Waits(v)))
  {
    RowPut(v, Bumped(v), Sent(v), Asked(v));
    hide Proof, StateValid, Verifier, Operation;
    assert HasState(Tables(v, Bumped(v), Sent(v)), HashText(v.state), v.id);
  }

  /** The bump is stamped zero, so the comparison with the stored time lets it pass. */
  lemma UserIsNamed(v: Values)
    ensures FinishCallbackTx(Tables(v, Bumped(v), Asked(v)), Waits(v), Answer(v).code', v.nonce)
         == (Tables(v, Bumped(v), Named(v)), AskConfirmation(v.id, 1024, v.nonce))
  {
    RowPut(v, Bumped(v), Asked(v), Named(v));
  }

  lemma LoginIsConfirmed(v: Values)
    requires Usable(v)
    ensures ConfirmTx(Tables(v, Bumped(v), Named(v)), 0, v.id, v.nonce, Some(v.cookie), v.code)
         == (Tables(v, Bumped(v), Agreed(v)), HandedOff(1024, v.id, v.code))
  {
    RowPut(v, Bumped(v), Named(v), Agreed(v));
    hide Proof, StateValid, Verifier, Operation;
  }

  lemma FamilyIsIssued(v: Values)
    requires Usable(v)
    ensures var db := Tables(v, Bumped(v), Agreed(v));
      var db' := ExchangeTx(db, 0, Request(v), v.family, v.access, v.refresh, v.revoke).0;
      && Issues(db, 0, Events(v)[6], db') && v.family in db'.families && db'.families[v.family].user == v.user
  {
    hide Proof, StateValid, Verifier, Operation;
  }

  lemma EventsAreEnabled(v: Values, n: nat)
    requires Usable(v) && n < 7
    ensures Enabled(StateAt(v, n), Events(v)[n])
  {
    hide Proof, StateValid, Verifier, Operation, Stored, Known;
  }

  /** The state after event n has the tables and the reply of its transaction. */
  lemma Advances(v: Values, n: nat, s': System)
    requires n < 6 && Enabled(StateAt(v, n), Events(v)[n])
    requires var (s, e) := (StateAt(v, n), Events(v)[n]);
      && !e.Tick? && s'.clock == s.clock && Transact(s, e).0 == s'.db && s'.drawn == s.drawn + Draws(e)
      && s'.calls == s.calls - Answered(e) + (if Transact(s, e).1.Waiting? then {Transact(s, e).1.call} else {})
    ensures Next(StateAt(v, n), Events(v)[n]) == s'
  {
    hide Enabled, Transact, StateAt, Events;
  }

  lemma NextState(v: Values, n: nat)
    requires Usable(v) && n < 6 && Enabled(StateAt(v, n), Events(v)[n])
    ensures Next(StateAt(v, n), Events(v)[n]) == StateAt(v, n + 1)
  {
    hide Enabled, Next, StateAt, Events;
    if n < 3 { EarlyState(v, n); }
    if n == 3 { AskedState(v); }
    if n == 4 { NamedState(v); }
    if n == 5 { AgreedState(v); }
  }

  lemma EarlyState(v: Values, n: nat)
    requires Usable(v) && n < 3 && Enabled(StateAt(v, n), Events(v)[n])
    ensures Next(StateAt(v, n), Events(v)[n]) == StateAt(v, n + 1)
  {
    LoginIsStored(v);
    LoginIsSent(v);
    hide Enabled, Usable, LoginTx, BrowserTx, BeginCallbackTx, FinishCallbackTx, ConfirmTx, ExchangeTx, CancelTx;
    hide RevokeTx, BeginRecheckTx, FinishRecheckTx, BeginRefreshTx, FinishRefreshTx, Stored, Sent, Asked, Named, Agreed;
    hide Next;
    Advances(v, n, StateAt(v, n + 1));
  }

  lemma AskedState(v: Values)
    requires Usable(v) && Enabled(StateAt(v, 3), Events(v)[3])
    ensures Next(StateAt(v, 3), Events(v)[3]) == StateAt(v, 4)
  {
    CodeIsClaimed(v);
    hide Enabled, Usable, LoginTx, BrowserTx, BeginCallbackTx, FinishCallbackTx, ConfirmTx, ExchangeTx, CancelTx;
    hide RevokeTx, BeginRecheckTx, FinishRecheckTx, BeginRefreshTx, FinishRefreshTx, Stored, Sent, Asked, Named, Agreed;
    hide Next;
    Advances(v, 3, StateAt(v, 4));
  }

  lemma NamedState(v: Values)
    requires Usable(v) && Enabled(StateAt(v, 4), Events(v)[4])
    ensures Next(StateAt(v, 4), Events(v)[4]) == StateAt(v, 5)
  {
    UserIsNamed(v);
    hide Enabled, Usable, LoginTx, BrowserTx, BeginCallbackTx, FinishCallbackTx, ConfirmTx, ExchangeTx, CancelTx;
    hide RevokeTx, BeginRecheckTx, FinishRecheckTx, BeginRefreshTx, FinishRefreshTx, Stored, Sent, Asked, Named, Agreed;
    hide Next;
    Advances(v, 4, StateAt(v, 5));
  }

  lemma AgreedState(v: Values)
    requires Usable(v) && Enabled(StateAt(v, 5), Events(v)[5])
    ensures Next(StateAt(v, 5), Events(v)[5]) == StateAt(v, 6)
  {
    LoginIsConfirmed(v);
    hide Enabled, Usable, LoginTx, BrowserTx, BeginCallbackTx, FinishCallbackTx, ConfirmTx, ExchangeTx, CancelTx;
    hide RevokeTx, BeginRecheckTx, FinishRecheckTx, BeginRefreshTx, FinishRefreshTx, Stored, Sent, Asked, Named, Agreed;
    hide Next;
    Advances(v, 5, StateAt(v, 6));
  }

  lemma Token(c: char) returns (t: string)
    requires Base64Url(c) && c in "AEIMQUYcgkosw048"
    ensures Proof(t) && StateValid(t) && Verifier(t) && |t| == 43 && t[0] == c
  {
    t := seq(43, _ => c);
  }

  lemma Zeros() returns (t: string)
    ensures Operation(t)
  {
    t := seq(32, _ => '0');
  }

  /** Eight different tokens. */
  lemma Tokens() returns (ts: seq<string>)
    ensures |ts| == 8 && forall i :: 0 <= i < 8 ==> Proof(ts[i]) && StateValid(ts[i]) && Verifier(ts[i])
    ensures forall i, j :: 0 <= i < j < 8 ==> ts[i] != ts[j]
  {
    hide Proof, StateValid, Verifier;
    var chars := "AEIMQUYc";
    ts := [];
    for n := 0 to 8
      invariant |ts| == n
      invariant forall i :: 0 <= i < n ==> Proof(ts[i]) && StateValid(ts[i]) && Verifier(ts[i])
      invariant forall i :: 0 <= i < n ==> |ts[i]| == 43 && ts[i][0] == chars[i]
    {
      var t := Token(chars[n]);
      ts := ts + [t];
    }
  }

  lemma UsableValues() returns (v: Values)
    ensures Usable(v)
  {
    hide Proof, StateValid, Verifier, Operation;
    var t := Tokens();
    var zeros := Zeros();
    v := Values(t[0], t[1], t[2], t[3], t[0], t[0], t[4], t[5], t[6], t[7], zeros, "user");
  }

  /** There is an execution of the transactions in which a login stored before a bump of its user issues
      a family for that user: the bump is stamped zero and the login expects no user. */
  lemma ZeroBumpIsMissed() returns (run: Run, i: nat, k: nat)
    ensures Executes(run) && i < k < |run.events| && run.events[i].Bump? && run.states[i].clock == 0
    ensures run.events[k].Exchange? && run.events[k].redeem.transaction in run.states[i].db.attempts
    ensures run.states[i].db.attempts[run.events[k].redeem.transaction].expected == ""
    ensures Issues(run.states[k].db, run.states[k].clock, run.events[k], run.states[k + 1].db)
    ensures run.states[k + 1].db.families[run.events[k].family].user == run.events[i].bumped
  {
    hide Usable, Issues, ExchangeTx, Executes, Agreed;
    var v := UsableValues();
    run := TheRun(v);
    i, k := 1, 6;
    FamilyIsIssued(v);
  }

  lemma TheRun(v: Values) returns (run: Run)
    requires Usable(v)
    ensures Executes(run) && run.events == Events(v) && |run.states| == 8
    ensures forall n :: 0 <= n < 7 ==> run.states[n] == StateAt(v, n)
    ensures run.states[7].db == ExchangeTx(StateAt(v, 6).db, 0, Request(v), v.family, v.access, v.refresh, v.revoke).0
  {
    hide Enabled, Usable, ExchangeTx, StateAt, Executes, Next, Opening, Answer, Request;
    forall n | 0 <= n < 7 ensures Enabled(StateAt(v, n), Events(v)[n]) { EventsAreEnabled(v, n); }
    forall n | 0 <= n < 6 ensures StateAt(v, n + 1) == Next(StateAt(v, n), Events(v)[n]) { NextState(v, n); }
    FirstState(v);
    LastState(v);
    var events, last := Events(v), Next(StateAt(v, 6), Events(v)[6]);
    assert |events| == 7;
    hide Events;
    var states := seq(7, n requires 0 <= n => StateAt(v, n)) + [last];
    forall n | 0 <= n < 7 ensures Enabled(states[n], events[n]) && states[n + 1] == Next(states[n], events[n]) {
      assert states[n] == StateAt(v, n) && (n < 6 ==> states[n + 1] == StateAt(v, n + 1));
    }
    run := Chain(states, events);
  }

  /** States that follow one another by events make an execution. */
  lemma Chain(states: seq<System>, events: seq<Event>) returns (run: Run)
    requires |states| == |events| + 1 && states[0] == Init
    requires forall n {:trigger events[n]} :: 0 <= n < |events| ==>
      Enabled(states[n], events[n]) && states[n + 1] == Next(states[n], events[n])
    ensures Executes(run) && run.states == states && run.events == events
  {
    hide Enabled, Next, ReplyOf;
    var replies := seq(
      |events|, n requires 0 <= n < |events| && Enabled(states[n], events[n]) => ReplyOf(states[n], events[n]));
    run := Run(states, events, replies);
  }

  lemma FirstState(v: Values)
    ensures StateAt(v, 0) == Init
  {
  }

  lemma LastState(v: Values)
    requires Enabled(StateAt(v, 6), Events(v)[6])
    ensures Next(StateAt(v, 6), Events(v)[6]).db
         == ExchangeTx(StateAt(v, 6).db, 0, Request(v), v.family, v.access, v.refresh, v.revoke).0
  {
    hide Enabled, ExchangeTx;
  }
}
