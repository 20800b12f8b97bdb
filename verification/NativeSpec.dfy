/** Every database transaction of the native session service as a function from
    the tables, the clock and the request to the new tables and the reply.

    A transaction that returns an error without committing leaves the tables as
    they were; the fence is the one check whose own update is committed together
    with the refusal. Random values are parameters. */
module NativeSpec {
  import opened Options
  import opened NativeTypes

  ghost function EpochOf(db: Db, user: string): Epoch {
    if user in db.epochs then db.epochs[user] else Epoch(0, 0)
  }

  predicate Live(row: Family) { row.phase == Active || row.phase == Refreshing }

  ghost predicate HasState(db: Db, h: Digest, id: string) {
    id in db.attempts && db.attempts[id].stateHash == h
  }

  ghost predicate HasAccess(db: Db, h: Digest, f: string) { f in db.families && db.families[f].accessHash == h }

  ghost predicate HasRefresh(db: Db, h: Digest, f: string) { f in db.families && db.families[f].refreshHash == h }

  ghost predicate HasRevoke(db: Db, h: Digest, f: string) { f in db.families && db.families[f].revokeHash == h }

  ghost function ByState(db: Db, h: Digest): Option<string> {
    if id :| HasState(db, h, id) then Some(id) else None
  }

  ghost function ByRefresh(db: Db, h: Digest): Option<string> {
    if f :| HasRefresh(db, h, f) then Some(f) else None
  }

  ghost function ByRevoke(db: Db, h: Digest): Option<string> {
    if f :| HasRevoke(db, h, f) then Some(f) else None
  }

  /** The unique indexes of the attempts and families tables. */
  ghost predicate Unique(db: Db) {
    && (forall h, a, b :: HasState(db, h, a) && HasState(db, h, b) ==> a == b)
    && (forall h, f, g :: HasAccess(db, h, f) && HasAccess(db, h, g) ==> f == g)
    && (forall h, f, g :: HasRefresh(db, h, f) && HasRefresh(db, h, g) ==> f == g)
    && (forall h, f, g :: HasRevoke(db, h, f) && HasRevoke(db, h, g) ==> f == g)
  }

  /** A row may be stored under f when no other row carries one of its hashes. */
  ghost predicate FamilyFits(db: Db, f: string, row: Family) {
    forall g :: g in db.families && g != f ==>
      && db.families[g].accessHash != row.accessHash
      && db.families[g].refreshHash != row.refreshHash
      && db.families[g].revokeHash != row.revokeHash
  }

  ghost function SetAttempt(db: Db, id: string, row: Attempt): Db { db.(attempts := db.attempts[id := row]) }

  ghost function SetFamily(db: Db, f: string, row: Family): Db { db.(families := db.families[f := row]) }

  // fence: 411-422

  ghost function Fence(db: Db, now: nat, f: string): (r: (Db, bool))
    requires f in db.families
  {
    var row := db.families[f];
    if !Live(row) || EpochOf(db, row.user).number != row.epoch then (db, false)
    else if row.phase == Refreshing && row.leaseExpires <= now then
      (SetFamily(db, f, row.(phase := Reauth, secret := Blank)), false)
    else (db, true)
  }

  /** The defensive comparison of family_secret. */
  ghost predicate GrantAgrees(f: string, row: Family, g: Grant) {
    && g.user == row.user && g.family == f && g.epoch == row.epoch && g.generation == row.generation
    && Hash(g.access) == row.accessHash && Hash(g.refresh) == row.refreshHash && Hash(g.revoke) == row.revokeHash
    && g.expiresAt == row.expiresAt
  }

  ghost function SecretOf(f: string, row: Family): Option<FamilySecret> {
    match OpenFamily(f, row.secret)
    case Some(s) => if GrantAgrees(f, row, s.grant) then Some(s) else None
    case None => None
  }

  // Login attempts: 445-738

  ghost function LoginTx(db: Db, created: nat, input: LoginRequest, provider: ProviderLogin, id: string, cookie: string)
    : (r: (Db, Reply))
  {
    if !input.challenge.Sha? || input.destination != "windows-loopback" || input.port < 1024
       || (input.expected.Some? && !CanonicalUser(input.expected.value)) then (db, Rejected(Invalid))
    else if provider.LoginRefused? then (db, Rejected(provider.error))
    else if !StateValid(provider.state) then (db, Rejected(Unavailable))
    else if |db.attempts| >= MAX_ATTEMPTS then (db, Rejected(Unavailable))
    else if id in db.attempts || ByState(db, HashText(provider.state)).Some? then (db, Rejected(Unavailable))
    else
      (SetAttempt(db, id, FirstRow(db, created, input, provider, id, cookie)), Started(id))
  }

  ghost function FirstRow(
    db: Db, created: nat, input: LoginRequest, provider: ProviderLogin, id: string, cookie: string)
    : Attempt
    requires provider.LoginReady?
  {
    var expected := if input.expected.Some? then input.expected.value else "";
    var secret := AttemptSecret(provider.authorizationUrl, provider.loginCookie, cookie, "", "", 0, "", "");
    Attempt(
      HashText(provider.state), input.challenge, expected, EpochOf(db, expected).number, None, "", input.port,
      created, created + ATTEMPT_TTL, New, NoDigest, NoDigest, NoDigest, None, "", None, "",
      Box(ForAttempt(id), OfAttempt(secret)), Blank)
  }

  ghost function BrowserTx(db: Db, now: nat, id: string): (r: (Db, Reply)) {
    if !Proof(id) || id !in db.attempts then (db, Rejected(Unauthorized))
    else
      var row := db.attempts[id];
      var secret := OpenAttempt(id, row.secret);
      if row.phase != New || row.expires <= now || secret.None? then (db, Rejected(Unauthorized))
      else
        (SetAttempt(db, id, row.(phase := Authorizing, cookieHash := HashText(secret.value.browserCookie))),
         SentToProvider(secret.value.authorizationUrl, secret.value.browserCookie))
  }

  ghost function BeginCallbackTx(
    db: Db, now: nat, code: string, state: string, cookie: Option<string>)
    : (r: (Db, Reply))
  {
    if code == "" || |code| > 4096 || !StateValid(state) then (db, Rejected(Unauthorized))
    else
      match ByState(db, HashText(state))
      case None => (db, Rejected(Unauthorized))
      case Some(id) =>
        var row := db.attempts[id];
        var secret := OpenAttempt(id, row.secret);
        if cookie.None? || !Proof(cookie.value) || row.phase != Authorizing || row.expires <= now
           || HashText(cookie.value) != row.cookieHash || secret.None? then (db, Rejected(Unauthorized))
        else (SetAttempt(db, id, row.(phase := Verifying)), Waiting(CallbackCall(id, row, secret.value)))
  }

  ghost function FinishCallbackTx(db: Db, call: Call, answer: CodeAnswer, nonce: string): (r: (Db, Reply))
    requires call.CallbackCall?
  {
    var id, seen := call.id, call.attempt;
    match answer
    case CodeRefused(error) =>
      if id in db.attempts && db.attempts[id].phase == Verifying then
        (SetAttempt(db, id, db.attempts[id].(phase := Failed, secret := Blank)), Rejected(error))
      else (db, Rejected(error))
    case LoginUnusable(error) => (db, Rejected(error))
    case CodeAccepted(user, cookies, expires, displayName) =>
      var epoch := EpochOf(db, user);
      if seen.expected != "" && seen.expected != user then (db, Rejected(Unauthorized))
      else if seen.expected != "" && seen.startEpoch != epoch.number then (db, Rejected(Unauthorized))
      else if seen.expected == "" && epoch.changedAt >= seen.created && epoch.changedAt > 0
        then (db, Rejected(Unauthorized))
      else if id !in db.attempts || db.attempts[id].phase != Verifying then (db, Rejected(Unauthorized))
      else
        var secret := call.attemptSecret.(
          providerCookies := cookies, providerExpires := expires, displayName := displayName,
          nonce := nonce, loginCookie := "", authorizationUrl := "");
        (SetAttempt(db, id, db.attempts[id].(
           phase := Confirm, user := user, epoch := Some(epoch.number), confirmHash := HashText(nonce),
           secret := Box(ForAttempt(id), OfAttempt(secret)))),
         AskConfirmation(id, seen.port, nonce))
  }

  ghost function ConfirmTx(
    db: Db, now: nat, id: string, nonce: string, cookie: Option<string>, code: string)
    : (r: (Db, Reply))
  {
    if !Proof(id) || !Proof(nonce) || id !in db.attempts then (db, Rejected(Unauthorized))
    else
      var row := db.attempts[id];
      if !(row.phase == Confirm || row.phase == Ready) || row.expires <= now
         || cookie.None? || !Proof(cookie.value) || HashText(cookie.value) != row.cookieHash
         || HashText(nonce) != row.confirmHash then (db, Rejected(Unauthorized))
      else if row.epoch.None? then (db, Rejected(Unavailable))
      else if EpochOf(db, row.user).number != row.epoch.value then (db, Rejected(Unauthorized))
      else
        match OpenAttempt(id, row.secret)
        case None => (db, Rejected(Unauthorized))
        case Some(secret) =>
          if secret.providerExpires <= now then (db, Rejected(Unauthorized))
          else if row.phase == Confirm then
            (SetAttempt(db, id, row.(
               phase := Ready, codeHash := HashText(code), handoffExpires := Some(Min(now + HANDOFF_TTL, row.expires)),
               secret := Box(ForAttempt(id), OfAttempt(secret.(handoffCode := code))))),
             HandedOff(row.port, id, code))
          else if row.handoffExpires.None? then (db, Rejected(Unavailable))
          else if row.handoffExpires.value <= now then (db, Rejected(Unauthorized))
          else (db, HandedOff(row.port, id, secret.handoffCode))
  }

  predicate ExchangeShape(input: ExchangeRequest) {
    && Proof(input.transaction) && Proof(input.code) && Verifier(input.verifier) && Operation(input.redemption)
    && input.environment == "canary" && input.destination == "windows-loopback"
  }

  function MintedGrant(
    user: string, f: string, epoch: nat, access: string, refresh: string, revoke: string, expires: nat, name: string)
    : Grant
  {
    Grant(user, f, 0, epoch, Access(access), Refresh(refresh), Revoke(revoke), expires, name)
  }

  function GrantedRow(g: Grant, cookies: string): Family {
    Family(g.user, g.epoch, g.generation, Active, Hash(g.access), Hash(g.refresh), Hash(g.revoke), g.expiresAt,
           Box(ForFamily(g.family), OfFamily(FamilySecret(cookies, g))), "", 0)
  }

  function Min(a: nat, b: nat): nat { if a <= b then a else b }

  ghost function ExchangeTx(
    db: Db, now: nat, input: ExchangeRequest, f: string, access: string, refresh: string, revoke: string)
    : (r: (Db, Reply))
  {
    if !ExchangeShape(input) || input.transaction !in db.attempts then (db, Rejected(Unauthorized))
    else
      var id := input.transaction;
      var row := db.attempts[id];
      if HashText(input.verifier) != row.challenge || HashText(input.code) != row.codeHash
        then (db, Rejected(Unauthorized))
      else if row.epoch.None? then (db, Rejected(Unavailable))
      else if EpochOf(db, row.user).number != row.epoch.value then (db, Rejected(Unauthorized))
      else if row.phase == Redeemed then ReplayExchange(db, now, id, input.redemption)
      else if row.phase == Ready then FirstExchange(db, now, input, row.epoch.value, f, access, refresh, revoke)
      else (db, Rejected(Unauthorized))
  }

  ghost function FirstExchange(
    db: Db, now: nat, input: ExchangeRequest, epoch: nat, f: string, access: string, refresh: string, revoke: string)
    : (r: (Db, Reply))
    requires input.transaction in db.attempts
  {
    var id := input.transaction;
    var row := db.attempts[id];
    if row.handoffExpires.None? then (db, Rejected(Unavailable))
    else if row.handoffExpires.value <= now then (db, Rejected(Unauthorized))
    else
      match OpenAttempt(id, row.secret)
      case None => (db, Rejected(Unauthorized))
      case Some(secret) =>
        var expires := Min(now + ACCESS_TTL, secret.providerExpires);
        var grant := MintedGrant(row.user, f, epoch, access, refresh, revoke, expires, secret.displayName);
        var result := ExchangeResult(grant.user, grant, grant.displayName);
        var family := GrantedRow(grant, secret.providerCookies);
        if expires <= now then (db, Rejected(Unauthorized))
        else if f in db.families || !FamilyFits(db, f, family) then (db, Rejected(Unavailable))
        else
          (SetFamily(SetAttempt(db, id, row.(
             phase := Redeemed, redemption := input.redemption, receiptExpires := Some(now + RECEIPT_TTL), family := f,
             secret := Blank, receipt := Box(ForHandoff(id), OfHandoff(result)))), f, family),
           Exchanged(result))
  }

  ghost function ReplayExchange(db: Db, now: nat, id: string, redemption: string): (r: (Db, Reply))
    requires id in db.attempts
  {
    var row := db.attempts[id];
    if row.redemption != redemption then (db, Rejected(Unauthorized))
    else if row.receiptExpires.None? then (db, Rejected(Unavailable))
    else if row.receiptExpires.value <= now || row.family !in db.families then (db, Rejected(Unauthorized))
    else
      var (fenced, ok) := Fence(db, now, row.family);
      if !ok then (fenced, Rejected(Unauthorized))
      else
        match OpenHandoff(id, row.receipt)
        case Some(result) => (db, Exchanged(result))
        case None => (db, Rejected(Unauthorized))
  }

  // Ending a login or a session: 739-784

  ghost function CancelTx(db: Db, input: CancelRequest): (r: (Db, Reply)) {
    if !Proof(input.transaction) || !Verifier(input.verifier) || input.environment != "canary"
       || input.destination != "windows-loopback" || input.transaction !in db.attempts then (db, Rejected(Unauthorized))
    else
      var id := input.transaction;
      var row := db.attempts[id];
      if HashText(input.verifier) != row.challenge then (db, Rejected(Unauthorized))
      else
        var cancelled := SetAttempt(db, id, row.(phase := Cancelled, secret := Blank));
        if row.family != "" && row.family in db.families then
          (SetFamily(cancelled, row.family, db.families[row.family].(phase := Revoked, secret := Blank)), Done)
        else (cancelled, Done)
  }

  ghost function RevokeTx(db: Db, token: Credential): (r: (Db, Reply)) {
    if !token.Revoke? || !Proof(token.body) then (db, Rejected(Unauthorized))
    else
      match ByRevoke(db, Hash(token))
      case None => (db, Rejected(Unauthorized))
      case Some(f) => (SetFamily(db, f, db.families[f].(phase := Revoked, secret := Blank)), Done)
  }

  // Using a session: 785-852

  ghost function ReferencedTx(db: Db, now: nat, ref: SessionRef): (r: (Db, Reply)) {
    if ref.family !in db.families then (db, Rejected(Unauthorized))
    else
      var row := db.families[ref.family];
      var (fenced, ok) := Fence(db, now, ref.family);
      if !ok then (fenced, Rejected(Unauthorized))
      else if row.accessHash != ref.accessHash || row.generation != ref.generation || row.epoch != ref.epoch
              || row.expiresAt <= now then (db, Rejected(Unauthorized))
      else
        match SecretOf(ref.family, row)
        case Some(secret) => (db, Opened(secret))
        case None => (db, Rejected(Unauthorized))
  }

  ghost function BeginRecheckTx(db: Db, now: nat, ref: SessionRef): (r: (Db, Reply)) {
    var (after, reply) := ReferencedTx(db, now, ref);
    (after, if reply.Opened? then Waiting(RecheckCall(ref, reply.secret)) else reply)
  }

  /** The second half of recheck; the upstream principal is None when the lookup failed. */
  ghost function FinishRecheckTx(db: Db, now: nat, call: Call, principal: Option<string>): (r: (Db, Reply))
    requires call.RecheckCall?
  {
    if principal != Some(call.secret.grant.user) then (db, Rejected(Unauthorized))
    else
      var (after, reply) := ReferencedTx(db, now, call.reference);
      (after, if reply.Opened? then Admitted(principal.value) else reply)
  }

  // Rotating the refresh token: 863-967

  ghost function BeginRefreshTx(
    db: Db, now: nat, token: Credential, input: RefreshRequest, lease: string)
    : (r: (Db, Reply))
  {
    if !token.Refresh? || !Proof(token.body) || !Operation(input.operation) || input.generation == U64_MAX then
      (db, Rejected(Unauthorized))
    else
      var key := ReceiptKey(Hash(token), input.operation, input.generation);
      if key in db.receipts then ReplayRefresh(db, now, key)
      else
        match ByRefresh(db, Hash(token))
        case None => (db, Rejected(Unauthorized))
        case Some(f) =>
          var row := db.families[f];
          var (fenced, ok) := Fence(db, now, f);
          if !ok then (fenced, Rejected(Unauthorized))
          else if row.generation != input.generation then (db, Rejected(Unauthorized))
          else if row.phase == Refreshing then (db, Rejected(Unavailable))
          else
            match SecretOf(f, row)
            case None => (db, Rejected(Unauthorized))
            case Some(secret) =>
              (SetFamily(db, f, row.(phase := Refreshing, lease := lease, leaseExpires := now + LEASE_TTL)),
               Waiting(RefreshCall(key, f, row, secret, lease)))
  }

  ghost function ReplayRefresh(db: Db, now: nat, key: ReceiptKey): (r: (Db, Reply))
    requires key in db.receipts
  {
    var receipt := db.receipts[key];
    if receipt.family !in db.families then (db, Rejected(Unauthorized))
    else
      var (fenced, ok) := Fence(db, now, receipt.family);
      if !ok then (fenced, Rejected(Unauthorized))
      else if receipt.expiresAt <= now then (db, Rejected(Unauthorized))
      else
        match OpenReceipt(key, receipt.result)
        case Some(grant) => (db, Granted(grant))
        case None => (db, Rejected(Unauthorized))
  }

  ghost function RequireReauth(db: Db, f: string, lease: string): Db {
    if f in db.families && db.families[f].phase == Refreshing && db.families[f].lease == lease then
      SetFamily(db, f, db.families[f].(phase := Reauth, secret := Blank))
    else db
  }

  function Successor(g: Grant, access: string, refresh: string, expires: nat, name: string): Grant {
    g.(generation := g.generation + 1, access := Access(access), refresh := Refresh(refresh), expiresAt := expires,
      displayName := name)
  }

  function RotatedRow(f: string, row: Family, g: Grant, cookies: string): Family {
    row.(phase := Active, generation := g.generation, accessHash := Hash(g.access), refreshHash := Hash(g.refresh),
         expiresAt := g.expiresAt, secret := Box(ForFamily(f), OfFamily(FamilySecret(cookies, g))), lease := "",
           leaseExpires := 0)
  }

  ghost function FinishRefreshTx(
    db: Db, now: nat, call: Call, answer: RenewalAnswer, access: string, refresh: string)
    : (r: (Db, Reply))
    requires call.RefreshCall?
  {
    match answer
    case RenewalRefused(error) => (RequireReauth(db, call.family, call.lease), Rejected(error))
    case RenewalUnusable(error) => (db, Rejected(error))
    case Renewed(user, cookies, expires, name) =>
      if user != call.row.user then (RequireReauth(db, call.family, call.lease), Rejected(Unauthorized))
      else
        StoreRenewal(db, now, call,
          Successor(call.familySecret.grant, access, refresh, Min(now + ACCESS_TTL, expires), name), cookies)
  }

  ghost function StoreRenewal(db: Db, now: nat, call: Call, grant: Grant, cookies: string): (r: (Db, Reply))
    requires call.RefreshCall?
  {
    var f := call.family;
    if f !in db.families then (db, Rejected(Unauthorized))
    else
      var row := db.families[f];
      var (fenced, ok) := Fence(db, now, f);
      var rotated := RotatedRow(f, row, grant, cookies);
      if !ok then (fenced, Rejected(Unauthorized))
      else if row.lease != call.lease || row.phase != Refreshing then (db, Rejected(Unauthorized))
      else if !FamilyFits(db, f, rotated) || call.key in db.receipts then (db, Rejected(Unavailable))
      else
        (SetFamily(db, f, rotated).(receipts := db.receipts[call.key :=
           Receipt(f, now + RECEIPT_TTL, Box(ForRefresh(call.key), OfGrant(grant)))]),
         Granted(grant))
  }
}
