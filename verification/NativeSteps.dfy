/** Runs of the whole native session protocol: any number of clients and server
    replicas, with every upstream call split into the transaction before it and the
    transaction after it, so that anything may happen in between. */
module NativeSteps {
  import opened Options
  import opened NativeTypes
  import opened NativeSpec

  /** The tables together with the clock, the random values drawn so far and the
      calls that are waiting for an upstream answer. */
  datatype System = System(db: Db, clock: nat, drawn: set<string>, calls: set<Call>)

  datatype Event =
    | Tick(seconds: nat)
    | Bump(bumped: string, rise: nat)
    | Crash(lost: Call)
    | Login(created: nat, request: LoginRequest, provider: ProviderLogin, id: string, browserCookie: string)
    | Browser(id: string)
    | BeginCallback(code: string, state: string, cookie: Option<string>)
    | FinishCallback(call: Call, code': CodeAnswer, nonce: string)
    | ConfirmLogin(id: string, presented: string, cookie: Option<string>, handoff: string)
    | Exchange(redeem: ExchangeRequest, family: string, access: string, refresh: string, revoke: string)
    | CancelLogin(cancel: CancelRequest)
    | RevokeSession(token: Credential)
    | BeginRecheck(reference: SessionRef)
    | FinishRecheck(call: Call, principal: Option<string>)
    | BeginRefresh(token: Credential, rotate: RefreshRequest, lease: string)
    | FinishRefresh(call: Call, renewal: RenewalAnswer, access: string, refresh: string)

  const Init := System(Db(map[], map[], map[], map[]), 0, {}, {})

  function Draws(e: Event): set<string> {
    match e
    case Login(_, _, _, id, cookie) => {id, cookie}
    case FinishCallback(_, _, nonce) => {nonce}
    case ConfirmLogin(_, _, _, code) => {code}
    case Exchange(_, f, access, refresh, revoke) => {f, access, refresh, revoke}
    case BeginRefresh(_, _, lease) => {lease}
    case FinishRefresh(_, _, access, refresh) => {access, refresh}
    case _ => {}
  }

  /** Random values are new, a login was started no later than it is stored, an
      epoch only rises, and a reply belongs to a call that is still waiting. */
  ghost predicate Enabled(s: System, e: Event) {
    && Draws(e) !! s.drawn
    && (forall r :: r in Draws(e) ==> Proof(r))
    && match e
       case Bump(_, rise) => rise > 0
       case Login(created, _, _, _, _) => created <= s.clock
       case FinishCallback(call, _, _) => call in s.calls && call.CallbackCall?
       case FinishRecheck(call, _) => call in s.calls && call.RecheckCall?
       case FinishRefresh(call, _, _, _) => call in s.calls && call.RefreshCall?
       case _ => true
  }

  ghost function BumpTx(db: Db, now: nat, user: string, rise: nat): Db {
    db.(epochs := db.epochs[user := Epoch(EpochOf(db, user).number + rise, now)])
  }

  ghost function Transact(s: System, e: Event): (r: (Db, Reply))
    requires Enabled(s, e)
  {
    match e
    case Tick(_) => (s.db, Done)
    case Bump(user, rise) => (BumpTx(s.db, s.clock, user, rise), Done)
    case Crash(_) => (s.db, Done)
    case Login(created, request, provider, id, cookie) => LoginTx(s.db, created, request, provider, id, cookie)
    case Browser(id) => BrowserTx(s.db, s.clock, id)
    case BeginCallback(code, state, cookie) => BeginCallbackTx(s.db, s.clock, code, state, cookie)
    case FinishCallback(call, answer, nonce) => FinishCallbackTx(s.db, call, answer, nonce)
    case ConfirmLogin(id, nonce, cookie, code) => ConfirmTx(s.db, s.clock, id, nonce, cookie, code)
    case Exchange(input, f, access, refresh, revoke) => ExchangeTx(s.db, s.clock, input, f, access, refresh, revoke)
    case CancelLogin(input) => CancelTx(s.db, input)
    case RevokeSession(token) => RevokeTx(s.db, token)
    case BeginRecheck(ref) => BeginRecheckTx(s.db, s.clock, ref)
    case FinishRecheck(call, principal) => FinishRecheckTx(s.db, s.clock, call, principal)
    case BeginRefresh(token, input, lease) => BeginRefreshTx(s.db, s.clock, token, input, lease)
    case FinishRefresh(call, answer, access, refresh) => FinishRefreshTx(s.db, s.clock, call, answer, access, refresh)
  }

  function Answered(e: Event): set<Call> {
    match e
    case Crash(call) => {call}
    case FinishCallback(call, _, _) => {call}
    case FinishRefresh(call, _, _, _) => {call}
    case _ => {}
  }

  ghost function ReplyOf(s: System, e: Event): Reply
    requires Enabled(s, e)
  {
    Transact(s, e).1
  }

  ghost function Next(s: System, e: Event): System
    requires Enabled(s, e)
  {
    var (db, reply) := Transact(s, e);
    System(db, if e.Tick? then s.clock + e.seconds else s.clock, s.drawn + Draws(e),
           s.calls - Answered(e) + if reply.Waiting? then {reply.call} else {})
  }

  // What one event may do to one row of each table

  ghost predicate Lapses(now: nat, e: Event, f: string, row: Family, row': Family) {
    && row.phase == Refreshing && row' == row.(phase := Reauth, secret := Blank)
    && (row.leaseExpires <= now
          || (e.FinishRefresh? && e.call.RefreshCall? && e.call.family == f && e.call.lease == row.lease))
  }

  ghost predicate Ends(db: Db, e: Event, f: string, row: Family, row': Family) {
    && row' == row.(phase := Revoked, secret := Blank)
    && ((e.RevokeSession? && row.revokeHash == Hash(e.token)) || Cancels(db, e, f))
  }

  ghost predicate Cancels(db: Db, e: Event, f: string) {
    && e.CancelLogin? && e.cancel.transaction in db.attempts
    && db.attempts[e.cancel.transaction].family == f
    && HashText(e.cancel.verifier) == db.attempts[e.cancel.transaction].challenge
  }

  ghost predicate Leases(now: nat, e: Event, row: Family, row': Family) {
    && e.BeginRefresh? && row.phase == Active && row.refreshHash == Hash(e.token)
    && row.generation == e.rotate.generation
    && e.rotate.generation < U64_MAX
    && row' == row.(phase := Refreshing, lease := e.lease, leaseExpires := now + LEASE_TTL)
  }

  ghost function NewGrant(now: nat, e: Event): Grant
    requires e.FinishRefresh? && e.call.RefreshCall? && e.renewal.Renewed?
  {
    Successor(e.call.familySecret.grant, e.access, e.refresh, Min(now + ACCESS_TTL, e.renewal.expires),
      e.renewal.displayName)
  }

  /** A renewal is stored: the row gets the successor grant and a receipt is filed for the spent token. */
  ghost predicate Rotates(db: Db, now: nat, e: Event, f: string, db': Db) {
    && e.FinishRefresh? && e.call.RefreshCall? && e.renewal.Renewed? && e.call.family == f && f in db.families
    && e.renewal.user == e.call.row.user && e.call.key !in db.receipts
    && var row := db.families[f];
    && row.phase == Refreshing && row.lease == e.call.lease && now < row.leaseExpires
    && EpochOf(db, row.user).number == row.epoch
    && db'.families == db.families[f := RotatedRow(f, row, NewGrant(now, e), e.renewal.cookies)]
    && db'.receipts == db.receipts[e.call.key :=
         Receipt(f, now + RECEIPT_TTL, Box(ForRefresh(e.call.key), OfGrant(NewGrant(now, e))))]
  }

  ghost predicate FamilyPut(db: Db, now: nat, e: Event, f: string, db': Db) {
    && f in db.families && f in db'.families
    && db'.families == db.families[f := db'.families[f]]
    && var row, row' := db.families[f], db'.families[f];
    && (Lapses(now, e, f, row, row') || Ends(db, e, f, row, row') || Leases(now, e, row, row'))
  }

  ghost predicate FamilyTable(db: Db, now: nat, e: Event, db': Db) {
    || db'.families == db.families
    || (exists f :: FamilyPut(db, now, e, f, db'))
    || (exists f :: Rotates(db, now, e, f, db'))
    || Issues(db, now, e, db')
  }

  /** A first redemption: the attempt is ready, unexpired, of the current epoch, and
      verifier and handoff code match. */
  ghost predicate Issues(db: Db, now: nat, e: Event, db': Db) {
    && e.Exchange? && e.redeem.transaction in db.attempts && e.family !in db.families
    && var row := db.attempts[e.redeem.transaction];
    && row.phase == Ready && row.handoffExpires.Some? && now < row.handoffExpires.value
    && HashText(e.redeem.verifier) == row.challenge && HashText(e.redeem.code) == row.codeHash
    && row.epoch == Some(EpochOf(db, row.user).number)
    && OpenAttempt(e.redeem.transaction, row.secret).Some?
    && var secret := OpenAttempt(e.redeem.transaction, row.secret).value;
    && now < secret.providerExpires
    && db'.families == db.families[e.family := GrantedRow(FirstGrant(now, e, row, secret), secret.providerCookies)]
    && db'.attempts == db.attempts[e.redeem.transaction := row.(
         phase := Redeemed, redemption := e.redeem.redemption, receiptExpires := Some(now + RECEIPT_TTL),
           family := e.family,
         secret := Blank, receipt := Box(ForHandoff(e.redeem.transaction),
           OfHandoff(FirstResult(now, e, row, secret))))]
  }

  ghost function FirstGrant(now: nat, e: Event, row: Attempt, secret: AttemptSecret): Grant
    requires e.Exchange? && row.epoch.Some?
  {
    MintedGrant(row.user, e.family, row.epoch.value, e.access, e.refresh, e.revoke,
      Min(now + ACCESS_TTL, secret.providerExpires), secret.displayName)
  }

  ghost function FirstResult(now: nat, e: Event, row: Attempt, secret: AttemptSecret): ExchangeResult
    requires e.Exchange? && row.epoch.Some?
  {
    ExchangeResult(row.user, FirstGrant(now, e, row, secret), secret.displayName)
  }

  ghost predicate Authorizes(now: nat, e: Event, id: string, row: Attempt, row': Attempt) {
    && e == Browser(id) && row.phase == New && now < row.expires && OpenAttempt(id, row.secret).Some?
    && row' == row.(phase := Authorizing, cookieHash := HashText(OpenAttempt(id, row.secret).value.browserCookie))
  }

  ghost predicate Verifies(now: nat, e: Event, row: Attempt, row': Attempt) {
    && e.BeginCallback? && row.stateHash == HashText(e.state) && row.phase == Authorizing && now < row.expires
    && e.cookie.Some? && HashText(e.cookie.value) == row.cookieHash
    && row' == row.(phase := Verifying)
  }

  ghost predicate Fails(e: Event, id: string, row: Attempt, row': Attempt) {
    && e.FinishCallback? && e.call.CallbackCall? && e.call.id == id && e.code'.CodeRefused? && row.phase == Verifying
    && row' == row.(phase := Failed, secret := Blank)
  }

  ghost predicate EpochUntouched(db: Db, seen: Attempt, user: string) {
    if seen.expected != "" then seen.expected == user && seen.startEpoch == EpochOf(db, user).number
    else EpochOf(db, user).changedAt < seen.created || EpochOf(db, user).changedAt == 0
  }

  ghost predicate Identifies(db: Db, e: Event, id: string, row: Attempt, row': Attempt) {
    && e.FinishCallback? && e.call.CallbackCall? && e.call.id == id && e.code'.CodeAccepted? && row.phase == Verifying
    && EpochUntouched(db, e.call.attempt, e.code'.user)
    && row' == row.(
         phase := Confirm, user := e.code'.user, epoch := Some(EpochOf(db, e.code'.user).number),
           confirmHash := HashText(e.nonce),
         secret := Box(ForAttempt(id), OfAttempt(e.call.attemptSecret.(
           providerCookies := e.code'.cookies, providerExpires := e.code'.expires, displayName := e.code'.displayName,
           nonce := e.nonce, loginCookie := "", authorizationUrl := ""))))
  }

  ghost predicate HandsOff(db: Db, now: nat, e: Event, id: string, row: Attempt, row': Attempt) {
    && e.ConfirmLogin? && e.id == id && row.phase == Confirm && now < row.expires
    && e.cookie.Some? && HashText(e.cookie.value) == row.cookieHash && HashText(e.presented) == row.confirmHash
    && row.epoch == Some(EpochOf(db, row.user).number)
    && OpenAttempt(id, row.secret).Some? && now < OpenAttempt(id, row.secret).value.providerExpires
    && row' == row.(
         phase := Ready, codeHash := HashText(e.handoff), handoffExpires := Some(Min(now + HANDOFF_TTL, row.expires)),
         secret := Box(ForAttempt(id), OfAttempt(OpenAttempt(id, row.secret).value.(handoffCode := e.handoff))))
  }

  /** A cancelled login takes the family it issued with it. */
  ghost predicate Withdraws(db: Db, e: Event, id: string, row: Attempt, row': Attempt, db': Db) {
    && e.CancelLogin? && e.cancel.transaction == id && HashText(e.cancel.verifier) == row.challenge
    && row' == row.(phase := Cancelled, secret := Blank)
    && (row.family != "" && row.family in db.families ==>
          row.family in db'.families && db'.families[row.family].phase == Revoked)
  }

  ghost predicate AttemptStep(db: Db, now: nat, e: Event, id: string, row: Attempt, row': Attempt, db': Db) {
    || Authorizes(now, e, id, row, row')
    || Verifies(now, e, row, row')
    || Fails(e, id, row, row')
    || Identifies(db, e, id, row, row')
    || HandsOff(db, now, e, id, row, row')
    || Withdraws(db, e, id, row, row', db')
  }

  ghost predicate AttemptPut(db: Db, now: nat, e: Event, id: string, db': Db) {
    && id in db.attempts && id in db'.attempts
    && db'.attempts == db.attempts[id := db'.attempts[id]]
    && AttemptStep(db, now, e, id, db.attempts[id], db'.attempts[id], db')
  }

  ghost predicate Opens(db: Db, e: Event, db': Db) {
    && e.Login? && e.id !in db.attempts && e.provider.LoginReady? && e.request.challenge.Sha?
    && (e.request.expected.Some? ==> e.request.expected.value != "")
    && (forall id :: !HasState(db, HashText(e.provider.state), id))
    && db'.attempts == db.attempts[e.id := FirstRow(db, e.created, e.request, e.provider, e.id, e.browserCookie)]
  }

  ghost predicate AttemptTable(db: Db, now: nat, e: Event, db': Db) {
    || db'.attempts == db.attempts
    || (exists id :: AttemptPut(db, now, e, id, db'))
    || Opens(db, e, db')
    || Issues(db, now, e, db')
  }

  ghost predicate ReceiptTable(db: Db, now: nat, e: Event, db': Db) {
    || db'.receipts == db.receipts
    || (exists f :: Rotates(db, now, e, f, db'))
  }

  ghost predicate EpochTable(db: Db, now: nat, e: Event, db': Db) {
    if e.Bump? then db'.epochs == db.epochs[e.bumped := Epoch(EpochOf(db, e.bumped).number + e.rise, now)]
    else db'.epochs == db.epochs
  }

  /** The family passes the fence. */
  ghost predicate Passes(db: Db, now: nat, f: string) {
    && f in db.families && Live(db.families[f])
    && EpochOf(db, db.families[f].user).number == db.families[f].epoch
    && (db.families[f].phase == Refreshing ==> now < db.families[f].leaseExpires)
  }

  ghost predicate Admits(db: Db, now: nat, ref: SessionRef, secret: FamilySecret) {
    && Passes(db, now, ref.family)
    && var row := db.families[ref.family];
    && row.accessHash == ref.accessHash && row.generation == ref.generation && row.epoch == ref.epoch
    && now < row.expiresAt
    && SecretOf(ref.family, row) == Some(secret)
  }

  ghost predicate ReplaysHandoff(db: Db, now: nat, e: Event, result: ExchangeResult) {
    && e.Exchange? && e.redeem.transaction in db.attempts
    && var row := db.attempts[e.redeem.transaction];
    && row.phase == Redeemed && row.redemption == e.redeem.redemption
    && HashText(e.redeem.verifier) == row.challenge && HashText(e.redeem.code) == row.codeHash
    && row.epoch == Some(EpochOf(db, row.user).number)
    && Passes(db, now, row.family)
    && OpenHandoff(e.redeem.transaction, row.receipt) == Some(result)
  }

  function KeyOf(e: Event): ReceiptKey
    requires e.BeginRefresh?
  {
    ReceiptKey(Hash(e.token), e.rotate.operation, e.rotate.generation)
  }

  ghost predicate ReplaysReceipt(db: Db, now: nat, e: Event, grant: Grant) {
    && e.BeginRefresh? && KeyOf(e) in db.receipts
    && Passes(db, now, db.receipts[KeyOf(e)].family)
    && now < db.receipts[KeyOf(e)].expiresAt
    && OpenReceipt(KeyOf(e), db.receipts[KeyOf(e)].result) == Some(grant)
  }

  ghost predicate EndsOne(db: Db, now: nat, e: Event, db': Db) {
    exists f :: FamilyPut(db, now, e, f, db') && Ends(db, e, f, db.families[f], db'.families[f])
  }

  /** What a reply other than a refusal says about the tables before and after. */
  ghost predicate ReplyFacts(db: Db, now: nat, e: Event, db': Db, r: Reply) {
    match r
    case Rejected(_) => db'.receipts == db.receipts && db'.families.Keys == db.families.Keys
    case SentToProvider(_, cookie) => e.Browser? && AttemptPut(db, now, e, e.id, db')
    case AskConfirmation(id, _, nonce) => e.FinishCallback? && nonce == e.nonce && AttemptPut(db, now, e, id, db')
    case HandedOff(_, id, code) =>
      && e.ConfirmLogin? && e.id == id && id in db.attempts
      && (|| AttemptPut(db, now, e, id, db')
          || (db' == db && db.attempts[id].phase == Ready && OpenAttempt(id, db.attempts[id].secret).Some?
              && code == OpenAttempt(id, db.attempts[id].secret).value.handoffCode))
    case Waiting(CallbackCall(id, row, secret)) =>
      && e.BeginCallback? && id in db.attempts && row == db.attempts[id] && OpenAttempt(id, row.secret) == Some(secret)
      && AttemptPut(db, now, e, id, db')
    case Waiting(RefreshCall(key, f, row, secret, lease)) =>
      && e.BeginRefresh? && key == KeyOf(e) && key !in db.receipts && lease == e.lease
      && Passes(db, now, f) && row == db.families[f] && SecretOf(f, row) == Some(secret)
      && FamilyPut(db, now, e, f, db') && Leases(now, e, row, db'.families[f])
    case Waiting(RecheckCall(ref, secret)) => e == BeginRecheck(ref) && Admits(db, now, ref, secret)
    case Admitted(user) =>
      e.FinishRecheck? && e.call.RecheckCall? && exists secret :: Admits(db, now, e.call.reference, secret)
    case Exchanged(result) =>
      || (db' == db && ReplaysHandoff(db, now, e, result))
      || (&& Issues(db, now, e, db')
          && var row := db.attempts[e.redeem.transaction];
          result == FirstResult(now, e, row, OpenAttempt(e.redeem.transaction, row.secret).value))
    case Granted(grant) =>
      || (db' == db && ReplaysReceipt(db, now, e, grant))
      || (&& e.FinishRefresh? && e.call.RefreshCall? && e.renewal.Renewed?
          && Rotates(db, now, e, e.call.family, db') && grant == NewGrant(now, e))
    case Done =>
      && (e.RevokeSession? ==> EndsOne(db, now, e, db'))
      && (e.CancelLogin? ==>
            && AttemptPut(db, now, e, e.cancel.transaction, db')
            && Withdraws(db, e, e.cancel.transaction, db.attempts[e.cancel.transaction],
              db'.attempts[e.cancel.transaction], db'))
    case _ => true
  }

  predicate ReplyKind(e: Event, r: Reply) {
    r.Rejected? ||
    match e
    case Login(_, _, _, _, _) => r.Started?
    case Browser(_) => r.SentToProvider?
    case BeginCallback(_, _, _) => r.Waiting? && r.call.CallbackCall?
    case FinishCallback(_, _, _) => r.AskConfirmation?
    case ConfirmLogin(_, _, _, _) => r.HandedOff?
    case Exchange(_, _, _, _, _) => r.Exchanged?
    case BeginRecheck(_) => r.Waiting? && r.call.RecheckCall?
    case FinishRecheck(_, _) => r.Admitted?
    case BeginRefresh(_, _, _) => r.Granted? || (r.Waiting? && r.call.RefreshCall?)
    case FinishRefresh(_, _, _, _) => r.Granted?
    case _ => r.Done?
  }

  ghost predicate TableStep(db: Db, now: nat, e: Event, db': Db, r: Reply) {
    && FamilyTable(db, now, e, db')
    && AttemptTable(db, now, e, db')
    && ReceiptTable(db, now, e, db')
    && EpochTable(db, now, e, db')
    && ReplyFacts(db, now, e, db', r)
    && ReplyKind(e, r)
  }

  /** One event of a run. */
  ghost predicate Step(s: System, e: Event, s': System, r: Reply) {
    && Enabled(s, e)
    && TableStep(s.db, s.clock, e, s'.db, r)
    && s'.clock == (if e.Tick? then s.clock + e.seconds else s.clock)
    && s'.drawn == s.drawn + Draws(e)
    && s'.calls == s.calls - Answered(e) + (if r.Waiting? then {r.call} else {})
  }

  // Every transaction takes such a step

  lemma LoginSteps(db: Db, now: nat, e: Event)
    requires e.Login?
    ensures var (db', r) := LoginTx(db, e.created, e.request, e.provider, e.id, e.browserCookie);
            TableStep(db, now, e, db', r)
  {
  }

  lemma BrowserSteps(db: Db, now: nat, e: Event)
    requires e.Browser?
    ensures var (db', r) := BrowserTx(db, now, e.id);
            TableStep(db, now, e, db', r)
  {
    var (db', r) := BrowserTx(db, now, e.id);
    if db' != db { assert AttemptPut(db, now, e, e.id, db'); }
  }

  lemma BeginCallbackSteps(db: Db, now: nat, e: Event)
    requires e.BeginCallback?
    ensures var (db', r) := BeginCallbackTx(db, now, e.code, e.state, e.cookie);
            TableStep(db, now, e, db', r)
  {
    var (db', r) := BeginCallbackTx(db, now, e.code, e.state, e.cookie);
    if r.Waiting? { assert AttemptPut(db, now, e, r.call.id, db'); }
  }

  lemma FinishCallbackSteps(db: Db, now: nat, e: Event)
    requires e.FinishCallback? && e.call.CallbackCall?
    ensures var (db', r) := FinishCallbackTx(db, e.call, e.code', e.nonce);
            TableStep(db, now, e, db', r)
  {
    hide Proof, SecretOf, Issues, Rotates, Passes, FamilyPut;
    var (db', r) := FinishCallbackTx(db, e.call, e.code', e.nonce);
    if db' != db { assert AttemptPut(db, now, e, e.call.id, db'); }
  }

  lemma ConfirmSteps(db: Db, now: nat, e: Event)
    requires e.ConfirmLogin?
    ensures var (db', r) := ConfirmTx(db, now, e.id, e.presented, e.cookie, e.handoff);
            TableStep(db, now, e, db', r)
  {
    hide Proof, SecretOf, EpochOf, Issues, Rotates, Passes, FamilyPut;
    var (db', r) := ConfirmTx(db, now, e.id, e.presented, e.cookie, e.handoff);
    if db' != db { assert AttemptPut(db, now, e, e.id, db'); }
  }

  lemma FenceSteps(db: Db, now: nat, e: Event, f: string)
    requires f in db.families
    ensures var (db', ok) := Fence(db, now, f);
            && (ok <==> Passes(db, now, f)) && (ok ==> db' == db)
            && (db' == db || FamilyPut(db, now, e, f, db'))
            && db' == db.(families := db'.families)
  {
  }

  lemma FirstExchangeSteps(db: Db, now: nat, e: Event)
    requires e.Exchange? && e.redeem.transaction in db.attempts
    requires var row := db.attempts[e.redeem.transaction];
             && row.phase == Ready && row.epoch == Some(EpochOf(db, row.user).number)
             && HashText(e.redeem.verifier) == row.challenge && HashText(e.redeem.code) == row.codeHash
    ensures var epoch := EpochOf(db, db.attempts[e.redeem.transaction].user).number;
            var (db', r) := FirstExchange(db, now, e.redeem, epoch, e.family, e.access, e.refresh, e.revoke);
            TableStep(db, now, e, db', r)
  {
    hide AttemptStep, FamilyPut, Passes, SecretOf, Proof;
  }

  lemma ReplayExchangeSteps(db: Db, now: nat, e: Event)
    requires e.Exchange? && e.redeem.transaction in db.attempts
    requires var row := db.attempts[e.redeem.transaction];
             && row.phase == Redeemed && row.epoch == Some(EpochOf(db, row.user).number)
             && HashText(e.redeem.verifier) == row.challenge && HashText(e.redeem.code) == row.codeHash
    ensures var (db', r) := ReplayExchange(db, now, e.redeem.transaction, e.redeem.redemption);
            TableStep(db, now, e, db', r)
  {
    var f := db.attempts[e.redeem.transaction].family;
    if f in db.families { FenceSteps(db, now, e, f); }
  }

  lemma ExchangeSteps(db: Db, now: nat, e: Event)
    requires e.Exchange?
    ensures var (db', r) := ExchangeTx(db, now, e.redeem, e.family, e.access, e.refresh, e.revoke);
            TableStep(db, now, e, db', r)
  {
    hide FirstExchange, ReplayExchange, Proof, Issues, Passes;
    if e.redeem.transaction in db.attempts {
      var row := db.attempts[e.redeem.transaction];
      if row.epoch == Some(EpochOf(db, row.user).number)
         && HashText(e.redeem.verifier) == row.challenge && HashText(e.redeem.code) == row.codeHash {
        if row.phase == Ready { FirstExchangeSteps(db, now, e); }
        if row.phase == Redeemed { ReplayExchangeSteps(db, now, e); }
      }
    }
  }

  lemma CancelSteps(db: Db, now: nat, e: Event)
    requires e.CancelLogin?
    ensures var (db', r) := CancelTx(db, e.cancel);
            TableStep(db, now, e, db', r)
  {
    hide Proof, Verifier, SecretOf, EpochOf, Issues, Rotates, Passes, EpochUntouched, OpenAttempt;
    var (db', r) := CancelTx(db, e.cancel);
    if r.Done? {
      var f := db.attempts[e.cancel.transaction].family;
      assert AttemptPut(db, now, e, e.cancel.transaction, db');
      if f in db'.families && f != "" { assert FamilyPut(db, now, e, f, db'); }
    }
  }

  lemma RevokeSteps(db: Db, now: nat, e: Event)
    requires e.RevokeSession?
    ensures var (db', r) := RevokeTx(db, e.token);
            TableStep(db, now, e, db', r)
  {
    if ByRevoke(db, Hash(e.token)).Some? {
      var f := ByRevoke(db, Hash(e.token)).value;
      var db' := RevokeTx(db, e.token).0;
      if db' != db { assert FamilyPut(db, now, e, f, db'); }
    }
  }

  lemma ReferencedSteps(db: Db, now: nat, e: Event, ref: SessionRef)
    ensures var (db', r) := ReferencedTx(db, now, ref);
            && (r.Opened? || r.Rejected?)
            && (r.Opened? ==> db' == db && Admits(db, now, ref, r.secret))
            && (db' == db || FamilyPut(db, now, e, ref.family, db'))
            && db' == db.(families := db'.families)
  {
    if ref.family in db.families { FenceSteps(db, now, e, ref.family); }
  }

  lemma BeginRecheckSteps(db: Db, now: nat, e: Event)
    requires e.BeginRecheck?
    ensures var (db', r) := BeginRecheckTx(db, now, e.reference);
            TableStep(db, now, e, db', r)
  {
    ReferencedSteps(db, now, e, e.reference);
  }

  lemma FinishRecheckSteps(db: Db, now: nat, e: Event)
    requires e.FinishRecheck? && e.call.RecheckCall?
    ensures var (db', r) := FinishRecheckTx(db, now, e.call, e.principal);
            TableStep(db, now, e, db', r)
  {
    ReferencedSteps(db, now, e, e.call.reference);
  }

  lemma ReplayRefreshSteps(db: Db, now: nat, e: Event)
    requires e.BeginRefresh? && KeyOf(e) in db.receipts
    ensures var (db', r) := ReplayRefresh(db, now, KeyOf(e));
            TableStep(db, now, e, db', r)
  {
    var f := db.receipts[KeyOf(e)].family;
    if f in db.families { FenceSteps(db, now, e, f); }
  }

  lemma BeginRefreshSteps(db: Db, now: nat, e: Event)
    requires e.BeginRefresh?
    ensures var (db', r) := BeginRefreshTx(db, now, e.token, e.rotate, e.lease);
            TableStep(db, now, e, db', r)
  {
    hide Proof, SecretOf, Issues, Rotates, ReplayRefresh, AttemptStep;
    if KeyOf(e) in db.receipts { ReplayRefreshSteps(db, now, e); }
    else if ByRefresh(db, Hash(e.token)).Some? {
      var f := ByRefresh(db, Hash(e.token)).value;
      FenceSteps(db, now, e, f);
      var (db', r) := BeginRefreshTx(db, now, e.token, e.rotate, e.lease);
      if r.Waiting? { assert FamilyPut(db, now, e, f, db'); }
    }
  }

  lemma StoreRenewalSteps(db: Db, now: nat, e: Event)
    requires e.FinishRefresh? && e.call.RefreshCall? && e.renewal.Renewed? && e.renewal.user == e.call.row.user
    ensures var (db', r) := StoreRenewal(db, now, e.call, NewGrant(now, e), e.renewal.cookies);
            TableStep(db, now, e, db', r)
  {
    hide AttemptStep, SecretOf, Proof, Issues;
    var f := e.call.family;
    if f in db.families {
      FenceSteps(db, now, e, f);
      var (db', r) := StoreRenewal(db, now, e.call, NewGrant(now, e), e.renewal.cookies);
      if r.Granted? { assert Rotates(db, now, e, f, db'); }
    }
  }

  lemma FinishRefreshSteps(db: Db, now: nat, e: Event)
    requires e.FinishRefresh? && e.call.RefreshCall?
    ensures var (db', r) := FinishRefreshTx(db, now, e.call, e.renewal, e.access, e.refresh);
            TableStep(db, now, e, db', r)
  {
    hide AttemptStep, SecretOf, Proof, Issues, StoreRenewal;
    if e.renewal.Renewed? && e.renewal.user == e.call.row.user { StoreRenewalSteps(db, now, e); }
    else {
      var db' := RequireReauth(db, e.call.family, e.call.lease);
      if db' != db { assert FamilyPut(db, now, e, e.call.family, db'); }
    }
  }

  /** The transactions of NativeSpec only take steps that Step describes. */
  lemma EveryEventSteps(s: System, e: Event)
    requires Enabled(s, e)
    ensures Step(s, e, Next(s, e), ReplyOf(s, e))
  {
    hide LoginTx, BrowserTx, BeginCallbackTx, FinishCallbackTx, ConfirmTx, ExchangeTx, CancelTx, RevokeTx;
    hide BeginRecheckTx, FinishRecheckTx, BeginRefreshTx, FinishRefreshTx, Proof;
    match e
    case Login(_, _, _, _, _) => LoginSteps(s.db, s.clock, e);
    case Browser(_) => BrowserSteps(s.db, s.clock, e);
    case BeginCallback(_, _, _) => BeginCallbackSteps(s.db, s.clock, e);
    case FinishCallback(_, _, _) => FinishCallbackSteps(s.db, s.clock, e);
    case ConfirmLogin(_, _, _, _) => ConfirmSteps(s.db, s.clock, e);
    case Exchange(_, _, _, _, _) => ExchangeSteps(s.db, s.clock, e);
    case CancelLogin(_) => CancelSteps(s.db, s.clock, e);
    case RevokeSession(_) => RevokeSteps(s.db, s.clock, e);
    case BeginRecheck(_) => BeginRecheckSteps(s.db, s.clock, e);
    case FinishRecheck(_, _) => FinishRecheckSteps(s.db, s.clock, e);
    case BeginRefresh(_, _, _) => BeginRefreshSteps(s.db, s.clock, e);
    case FinishRefresh(_, _, _, _) => FinishRefreshSteps(s.db, s.clock, e);
    case _ =>
  }
}
