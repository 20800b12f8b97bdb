/** The service itself: four tables changed in place, one method per transaction.

    Clock readings and random values are parameters. Each method is proved to do
    exactly what the transaction of the same name in NativeSpec says, and to keep
    the unique indexes. */
module NativeStore {
  import opened Options
  import opened NativeTypes
  import opened NativeSpec

  class NativeSessions {
    var epochs: map<string, Epoch>
    var attempts: map<string, Attempt>
    var families: map<string, Family>
    var receipts: map<ReceiptKey, Receipt>

    ghost function Tables(): Db
      reads this
    {
      Db(epochs, attempts, families, receipts)
    }

    ghost predicate Valid()
      reads this
    {
      Unique(Tables())
    }

    constructor ()
      ensures Valid() && Tables() == Db(map[], map[], map[], map[])
    {
      epochs, attempts, families, receipts := map[], map[], map[], map[];
    }

    // Index lookups

    method AttemptByState(h: Digest) returns (found: Option<string>)
      requires Valid()
      ensures found == ByState(Tables(), h)
    {
      var rest := attempts.Keys;
      while rest != {}
        invariant rest <= attempts.Keys
        invariant forall id :: id in attempts && id !in rest ==> attempts[id].stateHash != h
        decreases rest
      {
        var id :| id in rest;
        if attempts[id].stateHash == h {
          assert HasState(Tables(), h, id);
          return Some(id);
        }
        rest := rest - {id};
      }
      found := None;
    }

    method FamilyByRefresh(h: Digest) returns (found: Option<string>)
      requires Valid()
      ensures found == ByRefresh(Tables(), h)
    {
      var rest := families.Keys;
      while rest != {}
        invariant rest <= families.Keys
        invariant forall f :: f in families && f !in rest ==> families[f].refreshHash != h
        decreases rest
      {
        var f :| f in rest;
        if families[f].refreshHash == h {
          assert HasRefresh(Tables(), h, f);
          return Some(f);
        }
        rest := rest - {f};
      }
      found := None;
    }

    method FamilyByRevoke(h: Digest) returns (found: Option<string>)
      requires Valid()
      ensures found == ByRevoke(Tables(), h)
    {
      var rest := families.Keys;
      while rest != {}
        invariant rest <= families.Keys
        invariant forall f :: f in families && f !in rest ==> families[f].revokeHash != h
        decreases rest
      {
        var f :| f in rest;
        if families[f].revokeHash == h {
          assert HasRevoke(Tables(), h, f);
          return Some(f);
        }
        rest := rest - {f};
      }
      found := None;
    }

    /** Whether the unique indexes admit the row under f. */
    method Fits(f: string, row: Family) returns (ok: bool)
      ensures ok <==> FamilyFits(Tables(), f, row)
    {
      var rest := families.Keys;
      while rest != {}
        invariant rest <= families.Keys
        invariant forall g :: g in families && g !in rest && g != f ==>
          families[g].accessHash != row.accessHash && families[g].refreshHash != row.refreshHash
            && families[g].revokeHash != row.revokeHash
        decreases rest
      {
        var g :| g in rest;
        if g != f && (families[g].accessHash == row.accessHash || families[g].refreshHash == row.refreshHash
          || families[g].revokeHash == row.revokeHash) {
          return false;
        }
        rest := rest - {g};
      }
      ok := true;
    }

    method CurrentEpoch(user: string) returns (epoch: Epoch)
      ensures epoch == EpochOf(Tables(), user)
    {
      epoch := if user in epochs then epochs[user] else Epoch(0, 0);
    }

    method FenceFamily(now: nat, f: string) returns (ok: bool)
      requires Valid() && f in families
      modifies this`families
      ensures Valid() && (Tables(), ok) == Fence(old(Tables()), now, f)
    {
      var row := families[f];
      var epoch := CurrentEpoch(row.user);
      if !(row.phase == Active || row.phase == Refreshing) || epoch.number != row.epoch {
        return false;
      }
      if row.phase == Refreshing && row.leaseExpires <= now {
        families := families[f := row.(phase := Reauth, secret := Blank)];
        KeepsHashes(old(Tables()), f, row.(phase := Reauth, secret := Blank));
        return false;
      }
      ok := true;
    }

    method FamilySecretOf(f: string) returns (secret: Option<FamilySecret>)
      requires f in families
      ensures secret == SecretOf(f, families[f])
    {
      var row := families[f];
      var box := OpenFamily(f, row.secret);
      if box.None? { return None; }
      var grant := box.value.grant;
      if grant.user != row.user || grant.family != f || grant.epoch != row.epoch || grant.generation != row.generation
         || Hash(grant.access) != row.accessHash || Hash(grant.refresh) != row.refreshHash
         || Hash(grant.revoke) != row.revokeHash
         || grant.expiresAt != row.expiresAt {
        return None;
      }
      secret := box;
    }

    method Login(
      created: nat, input: LoginRequest, provider: ProviderLogin, id: string, cookie: string)
      returns (reply: Reply)
      requires Valid()
      modifies this`attempts
      ensures Valid() && (Tables(), reply) == LoginTx(old(Tables()), created, input, provider, id, cookie)
    {
      if !input.challenge.Sha? || input.destination != "windows-loopback" || input.port < 1024
         || (input.expected.Some? && !CanonicalUser(input.expected.value)) {
        return Rejected(Invalid);
      }
      if provider.LoginRefused? { return Rejected(provider.error); }
      if !StateValid(provider.state) { return Rejected(Unavailable); }
      var expected := if input.expected.Some? then input.expected.value else "";
      var secret := AttemptSecret(provider.authorizationUrl, provider.loginCookie, cookie, "", "", 0, "", "");
      var epoch := CurrentEpoch(expected);
      if |attempts| >= MAX_ATTEMPTS { return Rejected(Unavailable); }
      var clash := AttemptByState(HashText(provider.state));
      if id in attempts || clash.Some? { return Rejected(Unavailable); }
      attempts := attempts[id := Attempt(
        HashText(provider.state), input.challenge, expected, epoch.number, None, "", input.port, created,
          created + ATTEMPT_TTL,
        New, NoDigest, NoDigest, NoDigest, None, "", None, "", Box(ForAttempt(id), OfAttempt(secret)), Blank)];
      NewStateKeepsUnique(old(Tables()), id, attempts[id]);
      reply := Started(id);
    }

    method Browser(now: nat, id: string) returns (reply: Reply)
      requires Valid()
      modifies this`attempts
      ensures Valid() && (Tables(), reply) == BrowserTx(old(Tables()), now, id)
    {
      if !Proof(id) || id !in attempts { return Rejected(Unauthorized); }
      var row := attempts[id];
      if row.phase != New || row.expires <= now { return Rejected(Unauthorized); }
      var secret := OpenAttempt(id, row.secret);
      if secret.None? { return Rejected(Unauthorized); }
      attempts := attempts[id := row.(phase := Authorizing, cookieHash := HashText(secret.value.browserCookie))];
      KeepsState(old(Tables()), id, attempts[id]);
      reply := SentToProvider(secret.value.authorizationUrl, secret.value.browserCookie);
    }

    method BeginCallback(now: nat, code: string, state: string, cookie: Option<string>) returns (reply: Reply)
      requires Valid()
      modifies this`attempts
      ensures Valid() && (Tables(), reply) == BeginCallbackTx(old(Tables()), now, code, state, cookie)
    {
      if code == "" || |code| > 4096 || !StateValid(state) { return Rejected(Unauthorized); }
      var found := AttemptByState(HashText(state));
      if found.None? { return Rejected(Unauthorized); }
      var id := found.value;
      var row := attempts[id];
      if cookie.None? || !Proof(cookie.value) { return Rejected(Unauthorized); }
      if row.phase != Authorizing || row.expires <= now || HashText(cookie.value) != row.cookieHash {
        return Rejected(Unauthorized);
      }
      var secret := OpenAttempt(id, row.secret);
      if secret.None? { return Rejected(Unauthorized); }
      attempts := attempts[id := row.(phase := Verifying)];
      KeepsState(old(Tables()), id, attempts[id]);
      reply := Waiting(CallbackCall(id, row, secret.value));
    }

    method FinishCallback(call: Call, answer: CodeAnswer, nonce: string) returns (reply: Reply)
      requires Valid() && call.CallbackCall?
      modifies this`attempts
      ensures Valid() && (Tables(), reply) == FinishCallbackTx(old(Tables()), call, answer, nonce)
    {
      var id, seen := call.id, call.attempt;
      match answer
      case CodeRefused(error) =>
        if id in attempts && attempts[id].phase == Verifying {
          attempts := attempts[id := attempts[id].(phase := Failed, secret := Blank)];
          KeepsState(old(Tables()), id, attempts[id]);
        }
        return Rejected(error);
      case LoginUnusable(error) =>
        return Rejected(error);
      case CodeAccepted(user, cookies, expires, displayName) =>
        if seen.expected != "" && seen.expected != user { return Rejected(Unauthorized); }
        var secret := call.attemptSecret.(
          providerCookies := cookies, providerExpires := expires, displayName := displayName,
          nonce := nonce, loginCookie := "", authorizationUrl := "");
        var epoch := CurrentEpoch(user);
        if (seen.expected != "" && seen.startEpoch != epoch.number)
           || (seen.expected == "" && epoch.changedAt >= seen.created && epoch.changedAt > 0) {
          return Rejected(Unauthorized);
        }
        if id !in attempts || attempts[id].phase != Verifying { return Rejected(Unauthorized); }
        attempts := attempts[id := attempts[id].(
          phase := Confirm, user := user, epoch := Some(epoch.number), confirmHash := HashText(nonce),
          secret := Box(ForAttempt(id), OfAttempt(secret)))];
        KeepsState(old(Tables()), id, attempts[id]);
        reply := AskConfirmation(id, seen.port, nonce);
    }

    method ConfirmLogin(
      now: nat, id: string, nonce: string, cookie: Option<string>, code: string)
      returns (reply: Reply)
      requires Valid()
      modifies this`attempts
      ensures Valid() && (Tables(), reply) == ConfirmTx(old(Tables()), now, id, nonce, cookie, code)
    {
      if !Proof(id) || !Proof(nonce) || id !in attempts { return Rejected(Unauthorized); }
      var row := attempts[id];
      if !(row.phase == Confirm || row.phase == Ready) || row.expires <= now
         || cookie.None? || !Proof(cookie.value) || HashText(cookie.value) != row.cookieHash
         || HashText(nonce) != row.confirmHash {
        return Rejected(Unauthorized);
      }
      if row.epoch.None? { return Rejected(Unavailable); }
      var epoch := CurrentEpoch(row.user);
      if epoch.number != row.epoch.value { return Rejected(Unauthorized); }
      var secret := OpenAttempt(id, row.secret);
      if secret.None? || secret.value.providerExpires <= now { return Rejected(Unauthorized); }
      if row.phase == Confirm {
        attempts := attempts[id := row.(
          phase := Ready, codeHash := HashText(code), handoffExpires := Some(Min(now + HANDOFF_TTL, row.expires)),
          secret := Box(ForAttempt(id), OfAttempt(secret.value.(handoffCode := code))))];
        KeepsState(old(Tables()), id, attempts[id]);
        return HandedOff(row.port, id, code);
      }
      if row.handoffExpires.None? { return Rejected(Unavailable); }
      if row.handoffExpires.value <= now { return Rejected(Unauthorized); }
      reply := HandedOff(row.port, id, secret.value.handoffCode);
    }

    method Exchange(
      now: nat, input: ExchangeRequest, f: string, access: string, refresh: string, revoke: string)
      returns (reply: Reply)
      requires Valid()
      modifies this`attempts, this`families
      ensures Valid() && (Tables(), reply) == ExchangeTx(old(Tables()), now, input, f, access, refresh, revoke)
    {
      if !ExchangeShape(input) || input.transaction !in attempts { return Rejected(Unauthorized); }
      var id := input.transaction;
      var row := attempts[id];
      if HashText(input.verifier) != row.challenge || HashText(input.code) != row.codeHash {
        return Rejected(Unauthorized);
      }
      if row.epoch.None? { return Rejected(Unavailable); }
      var epoch := CurrentEpoch(row.user);
      if epoch.number != row.epoch.value { return Rejected(Unauthorized); }
      if row.phase == Redeemed {
        reply := ReplayHandoff(now, id, input.redemption);
        return;
      }
      if row.phase != Ready { return Rejected(Unauthorized); }
      reply := IssueFamily(now, input, row.epoch.value, f, access, refresh, revoke);
    }

    method ReplayHandoff(now: nat, id: string, redemption: string) returns (reply: Reply)
      requires Valid() && id in attempts
      modifies this`families
      ensures Valid() && (Tables(), reply) == ReplayExchange(old(Tables()), now, id, redemption)
    {
      var row := attempts[id];
      if row.redemption != redemption { return Rejected(Unauthorized); }
      if row.receiptExpires.None? { return Rejected(Unavailable); }
      if row.receiptExpires.value <= now || row.family !in families { return Rejected(Unauthorized); }
      var ok := FenceFamily(now, row.family);
      if !ok { return Rejected(Unauthorized); }
      var result := OpenHandoff(id, row.receipt);
      reply := if result.Some? then Exchanged(result.value) else Rejected(Unauthorized);
    }

    method IssueFamily(
      now: nat, input: ExchangeRequest, epoch: nat, f: string, access: string, refresh: string, revoke: string)
      returns (reply: Reply)
      requires Valid() && input.transaction in attempts
      modifies this`attempts, this`families
      ensures Valid() && (Tables(), reply) ==
        FirstExchange(old(Tables()), now, input, epoch, f, access, refresh, revoke)
    {
      var id := input.transaction;
      var row := attempts[id];
      if row.handoffExpires.None? { return Rejected(Unavailable); }
      if row.handoffExpires.value <= now { return Rejected(Unauthorized); }
      var opened' := OpenAttempt(id, row.secret);
      if opened'.None? { return Rejected(Unauthorized); }
      var secret := opened'.value;
      var grant := Grant(row.user, f, 0, epoch, Access(access), Refresh(refresh), Revoke(revoke),
                         Min(now + ACCESS_TTL, secret.providerExpires), secret.displayName);
      if grant.expiresAt <= now { return Rejected(Unauthorized); }
      var result := ExchangeResult(grant.user, grant, grant.displayName);
      var family := GrantedRow(grant, secret.providerCookies);
      var fits := Fits(f, family);
      if f in families || !fits { return Rejected(Unavailable); }
      attempts := attempts[id := row.(
        phase := Redeemed, redemption := input.redemption, receiptExpires := Some(now + RECEIPT_TTL), family := f,
        secret := Blank, receipt := Box(ForHandoff(id), OfHandoff(result)))];
      KeepsState(old(Tables()), id, attempts[id]);
      ghost var mid := Tables();
      families := families[f := family];
      FittingKeepsUnique(mid, f, family);
      reply := Exchanged(result);
    }

    method CancelLogin(input: CancelRequest) returns (reply: Reply)
      requires Valid()
      modifies this`attempts, this`families
      ensures Valid() && (Tables(), reply) == CancelTx(old(Tables()), input)
    {
      if !Proof(input.transaction) || !Verifier(input.verifier) || input.environment != "canary"
         || input.destination != "windows-loopback" || input.transaction !in attempts {
        return Rejected(Unauthorized);
      }
      var id := input.transaction;
      var row := attempts[id];
      if HashText(input.verifier) != row.challenge { return Rejected(Unauthorized); }
      attempts := attempts[id := row.(phase := Cancelled, secret := Blank)];
      KeepsState(old(Tables()), id, attempts[id]);
      if row.family != "" && row.family in families {
        ghost var mid := Tables();
        families := families[row.family := families[row.family].(phase := Revoked, secret := Blank)];
        KeepsHashes(mid, row.family, families[row.family]);
      }
      reply := Done;
    }

    method RevokeSession(token: Credential) returns (reply: Reply)
      requires Valid()
      modifies this`families
      ensures Valid() && (Tables(), reply) == RevokeTx(old(Tables()), token)
    {
      if !token.Revoke? || !Proof(token.body) { return Rejected(Unauthorized); }
      var found := FamilyByRevoke(Hash(token));
      if found.None? { return Rejected(Unauthorized); }
      families := families[found.value := families[found.value].(phase := Revoked, secret := Blank)];
      KeepsHashes(old(Tables()), found.value, families[found.value]);
      reply := Done;
    }

    method Referenced(now: nat, ref: SessionRef) returns (reply: Reply)
      requires Valid()
      modifies this`families
      ensures Valid() && (Tables(), reply) == ReferencedTx(old(Tables()), now, ref)
    {
      if ref.family !in families { return Rejected(Unauthorized); }
      var row := families[ref.family];
      var ok := FenceFamily(now, ref.family);
      if !ok { return Rejected(Unauthorized); }
      if row.accessHash != ref.accessHash || row.generation != ref.generation || row.epoch != ref.epoch
        || row.expiresAt <= now {
        return Rejected(Unauthorized);
      }
      var secret := FamilySecretOf(ref.family);
      reply := if secret.Some? then Opened(secret.value) else Rejected(Unauthorized);
    }

    method BeginRecheck(now: nat, ref: SessionRef) returns (reply: Reply)
      requires Valid()
      modifies this`families
      ensures Valid() && (Tables(), reply) == BeginRecheckTx(old(Tables()), now, ref)
    {
      reply := Referenced(now, ref);
      if reply.Opened? { reply := Waiting(RecheckCall(ref, reply.secret)); }
    }

    method FinishRecheck(now: nat, call: Call, principal: Option<string>) returns (reply: Reply)
      requires Valid() && call.RecheckCall?
      modifies this`families
      ensures Valid() && (Tables(), reply) == FinishRecheckTx(old(Tables()), now, call, principal)
    {
      if principal != Some(call.secret.grant.user) { return Rejected(Unauthorized); }
      reply := Referenced(now, call.reference);
      if reply.Opened? { reply := Admitted(principal.value); }
    }

    method BeginRefresh(now: nat, token: Credential, input: RefreshRequest, lease: string) returns (reply: Reply)
      requires Valid()
      modifies this`families
      ensures Valid() && (Tables(), reply) == BeginRefreshTx(old(Tables()), now, token, input, lease)
    {
      if !token.Refresh? || !Proof(token.body) || !Operation(input.operation) || input.generation == U64_MAX {
        return Rejected(Unauthorized);
      }
      var key := ReceiptKey(Hash(token), input.operation, input.generation);
      if key in receipts {
        reply := ReplayReceipt(now, key);
        return;
      }
      var found := FamilyByRefresh(Hash(token));
      if found.None? { return Rejected(Unauthorized); }
      var f := found.value;
      var row := families[f];
      var ok := FenceFamily(now, f);
      if !ok || row.generation != input.generation { return Rejected(Unauthorized); }
      if row.phase == Refreshing { return Rejected(Unavailable); }
      var secret := FamilySecretOf(f);
      if secret.None? { return Rejected(Unauthorized); }
      families := families[f := row.(phase := Refreshing, lease := lease, leaseExpires := now + LEASE_TTL)];
      KeepsHashes(old(Tables()), f, families[f]);
      reply := Waiting(RefreshCall(key, f, row, secret.value, lease));
    }

    method ReplayReceipt(now: nat, key: ReceiptKey) returns (reply: Reply)
      requires Valid() && key in receipts
      modifies this`families
      ensures Valid() && (Tables(), reply) == ReplayRefresh(old(Tables()), now, key)
    {
      var receipt := receipts[key];
      if receipt.family !in families { return Rejected(Unauthorized); }
      var ok := FenceFamily(now, receipt.family);
      if !ok || receipt.expiresAt <= now { return Rejected(Unauthorized); }
      var grant := OpenReceipt(key, receipt.result);
      reply := if grant.Some? then Granted(grant.value) else Rejected(Unauthorized);
    }

    method RequireReauthentication(f: string, lease: string)
      requires Valid()
      modifies this`families
      ensures Valid() && Tables() == RequireReauth(old(Tables()), f, lease)
    {
      if f in families && families[f].phase == Refreshing && families[f].lease == lease {
        families := families[f := families[f].(phase := Reauth, secret := Blank)];
        KeepsHashes(old(Tables()), f, families[f]);
      }
    }

    method FinishRefresh(
      now: nat, call: Call, answer: RenewalAnswer, access: string, refresh: string)
      returns (reply: Reply)
      requires Valid() && call.RefreshCall?
      modifies this`families, this`receipts
      ensures Valid() && (Tables(), reply) == FinishRefreshTx(old(Tables()), now, call, answer, access, refresh)
    {
      match answer
      case RenewalRefused(error) =>
        RequireReauthentication(call.family, call.lease);
        return Rejected(error);
      case RenewalUnusable(error) =>
        return Rejected(error);
      case Renewed(user, cookies, expires, name) =>
        if user != call.row.user {
          RequireReauthentication(call.family, call.lease);
          return Rejected(Unauthorized);
        }
        var grant := call.familySecret.grant.(
          generation := call.familySecret.grant.generation + 1, access := Access(access), refresh := Refresh(refresh),
          expiresAt := Min(now + ACCESS_TTL, expires), displayName := name);
        reply := KeepRenewal(now, call, grant, cookies);
    }

    method KeepRenewal(now: nat, call: Call, grant: Grant, cookies: string) returns (reply: Reply)
      requires Valid() && call.RefreshCall?
      modifies this`families, this`receipts
      ensures Valid() && (Tables(), reply) == StoreRenewal(old(Tables()), now, call, grant, cookies)
    {
      var f := call.family;
      if f !in families { return Rejected(Unauthorized); }
      var row := families[f];
      var ok := FenceFamily(now, f);
      if !ok || row.lease != call.lease || row.phase != Refreshing { return Rejected(Unauthorized); }
      var rotated := RotatedRow(f, row, grant, cookies);
      var fits := Fits(f, rotated);
      if !fits || call.key in receipts { return Rejected(Unavailable); }
      families := families[f := rotated];
      FittingKeepsUnique(old(Tables()), f, rotated);
      receipts := receipts[call.key := Receipt(f, now + RECEIPT_TTL, Box(ForRefresh(call.key), OfGrant(grant)))];
      SameRowsKeepUnique(SetFamily(old(Tables()), f, rotated), Tables());
      reply := Granted(grant);
    }
  }

  lemma KeepsHashes(db: Db, f: string, row: Family)
    requires Unique(db) && f in db.families
    requires row.accessHash == db.families[f].accessHash && row.refreshHash == db.families[f].refreshHash
      && row.revokeHash == db.families[f].revokeHash
    ensures Unique(SetFamily(db, f, row))
  {
    var db' := SetFamily(db, f, row);
    assert forall h, g :: HasState(db', h, g) ==> HasState(db, h, g);
    assert forall h, g :: HasAccess(db', h, g) ==> HasAccess(db, h, g);
    assert forall h, g :: HasRefresh(db', h, g) ==> HasRefresh(db, h, g);
    assert forall h, g :: HasRevoke(db', h, g) ==> HasRevoke(db, h, g);
  }

  lemma FittingKeepsUnique(db: Db, f: string, row: Family)
    requires Unique(db) && FamilyFits(db, f, row)
    ensures Unique(SetFamily(db, f, row))
  {
    var db' := SetFamily(db, f, row);
    assert forall h, g :: HasState(db', h, g) ==> HasState(db, h, g);
    assert forall h, g :: g != f && HasAccess(db', h, g) ==> HasAccess(db, h, g);
    assert forall h, g :: g != f && HasRefresh(db', h, g) ==> HasRefresh(db, h, g);
    assert forall h, g :: g != f && HasRevoke(db', h, g) ==> HasRevoke(db, h, g);
  }

  lemma KeepsState(db: Db, id: string, row: Attempt)
    requires Unique(db) && id in db.attempts && row.stateHash == db.attempts[id].stateHash
    ensures Unique(SetAttempt(db, id, row))
  {
    var db' := SetAttempt(db, id, row);
    assert forall h, i :: HasState(db', h, i) ==> HasState(db, h, i);
    SameFamiliesKeepUnique(db, db');
  }

  lemma NewStateKeepsUnique(db: Db, id: string, row: Attempt)
    requires Unique(db) && ByState(db, row.stateHash).None?
    ensures Unique(SetAttempt(db, id, row))
  {
    var db' := SetAttempt(db, id, row);
    assert forall h, i :: i != id && HasState(db', h, i) ==> HasState(db, h, i);
    SameFamiliesKeepUnique(db, db');
  }

  lemma SameFamiliesKeepUnique(db: Db, db': Db)
    requires Unique(db) && db'.families == db.families
    ensures forall h, f, g :: HasAccess(db', h, f) && HasAccess(db', h, g) ==> f == g
    ensures forall h, f, g :: HasRefresh(db', h, f) && HasRefresh(db', h, g) ==> f == g
    ensures forall h, f, g :: HasRevoke(db', h, f) && HasRevoke(db', h, g) ==> f == g
  {
    assert forall h, g :: HasAccess(db', h, g) ==> HasAccess(db, h, g);
    assert forall h, g :: HasRefresh(db', h, g) ==> HasRefresh(db, h, g);
    assert forall h, g :: HasRevoke(db', h, g) ==> HasRevoke(db, h, g);
  }

  lemma SameRowsKeepUnique(db: Db, db': Db)
    requires Unique(db) && db'.families == db.families && db'.attempts == db.attempts
    ensures Unique(db')
  {
    assert forall h, i :: HasState(db', h, i) ==> HasState(db, h, i);
    SameFamiliesKeepUnique(db, db');
  }
}
